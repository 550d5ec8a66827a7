/**
  The watermark-based search index of src/search/reindex.service.ts: one collection's table,
  its index, and the cursor of the last completed sync.  Writers and syncs interleave at every awaited
  call, and a sync may stop anywhere.  A write is visible at its `updatedAt`; rows are never deleted.
 */
module SearchIndex {
  import opened Util

  type Id = string

  datatype Row =
    | Product(name: string, description: Option<string>, slug: string, brandId: Id, price: int, isActive: bool)
    | Brand(name: string, slug: string, isVerified: bool, isActive: bool)
    | Drop(title: string, description: Option<string>, slug: string, brandId: Id, status: string)

  datatype Stamped = Stamped(row: Row, updatedAt: nat)

  datatype Doc =
    | ProductDoc(id: Id, name: string, description: string, slug: string, brandId: Id, price: int, isActive: bool,
        updatedAt: nat)
    | BrandDoc(id: Id, name: string, slug: string, isVerified: bool, isActive: bool, updatedAt: nat)
    | DropDoc(id: Id, title: string, description: string, slug: string, brandId: Id, status: string, updatedAt: nat)

  function Project(id: Id, r: Stamped): Doc {
    match r.row
    case Product(name, description, slug, brandId, price, isActive) =>
      ProductDoc(id, name, description.GetOr(""), slug, brandId, price, isActive, r.updatedAt)
    case Brand(name, slug, isVerified, isActive) => BrandDoc(id, name, slug, isVerified, isActive, r.updatedAt)
    case Drop(title, description, slug, brandId, status) =>
      DropDoc(id, title, description.GetOr(""), slug, brandId, status, r.updatedAt)
  }

  /** The document says what the row says, field by field; a missing description is the empty text. */
  predicate Tells(doc: Doc, id: Id, r: Stamped) {
    && doc.id == id && doc.updatedAt == r.updatedAt
    && match r.row
       case Product(name, description, slug, brandId, price, isActive) =>
         && doc.ProductDoc? && doc.name == name && doc.slug == slug && doc.brandId == brandId
         && doc.price == price && doc.isActive == isActive
         && doc.description == (if description.Some? then description.value else "")
       case Brand(name, slug, isVerified, isActive) =>
         && doc.BrandDoc? && doc.name == name && doc.slug == slug
         && doc.isVerified == isVerified && doc.isActive == isActive
       case Drop(title, description, slug, brandId, status) =>
         && doc.DropDoc? && doc.title == title && doc.slug == slug && doc.brandId == brandId && doc.status == status
         && doc.description == (if description.Some? then description.value else "")
  }

  /** The projection is the one document that does. */
  lemma OnlyProjectionTells(doc: Doc, id: Id, r: Stamped)
    ensures Tells(doc, id, r) <==> doc == Project(id, r)
  {
  }

  /** The index a full rebuild is meant to give. */
  function Mirror(table: map<Id, Stamped>): map<Id, Doc> {
    map id | id in table :: Project(id, table[id])
  }

  const EPOCH: nat := 0

  type Rows = seq<(Id, Stamped)>

  datatype Sync =
    | Idle
    | Since(since: nat)
    | Timed(since: nat, startedAt: nat)
    | Upserting(startedAt: nat, rows: Rows)   // what the query returned and is not upserted yet

  datatype State = State(
    now: nat,
    table: map<Id, Stamped>,
    index: map<Id, Doc>,
    cursor: Option<nat>,
    syncs: map<nat, Sync>)
  {
    function Sync(i: nat): Sync {
      if i in syncs then syncs[i] else Idle
    }

    function Put(i: nat, y: Sync): State {
      this.(syncs := syncs[i := y])
    }

    function Cursor(): nat {
      cursor.GetOr(EPOCH)
    }
  }

  /** Whether a sync may start only while no other one is under way. */
  datatype Env = Env(exclusive: bool)

  datatype Action =
    | Tick(d: nat)
    | Write(id: Id, row: Row)
    | Begin(i: nat, full: bool)      // reindexAll, or reindexIncremental reading the cursor
    | ReadClock(i: nat)
    | Query(i: nat, rows: Rows)
    | Upsert(i: nat)
    | SaveCursor(i: nat)
    | Abort(i: nat)

  const Init := State(0, map[], map[], None, map[])

  /** The rows `updatedAt >= since`, in some order. */
  ghost predicate Matches(table: map<Id, Stamped>, since: nat, rows: Rows) {
    && (forall k :: 0 <= k < |rows| ==>
          rows[k].0 in table && table[rows[k].0] == rows[k].1 && rows[k].1.updatedAt >= since)
    && (forall id :: id in table && table[id].updatedAt >= since ==> (id, table[id]) in rows)
  }

  ghost function Step(env: Env, s: State, a: Action): State {
    match a
    case Tick(d) => s.(now := s.now + d)
    case Write(id, row) => s.(table := s.table[id := Stamped(row, s.now)])
    case Begin(i, full) =>
      if s.Sync(i) != Idle || (env.exclusive && exists j :: s.Sync(j) != Idle) then s
      else s.Put(i, Since(if full then EPOCH else s.Cursor()))
    case ReadClock(i) => if s.Sync(i).Since? then s.Put(i, Timed(s.Sync(i).since, s.now)) else s
    case Query(i, rows) =>
      if s.Sync(i).Timed? && Matches(s.table, s.Sync(i).since, rows)
          then s.Put(i, Upserting(s.Sync(i).startedAt, rows)) else s
    case Upsert(i) =>
      if !s.Sync(i).Upserting? || s.Sync(i).rows == [] then s else
      var (id, r) := s.Sync(i).rows[0];
      s.(index := s.index[id := Project(id, r)]).Put(i, s.Sync(i).(rows := s.Sync(i).rows[1..]))
    case SaveCursor(i) =>
      if s.Sync(i).Upserting? && s.Sync(i).rows == [] then s.(cursor := Some(s.Sync(i).startedAt)).Put(i, Idle) else s
    case Abort(i) => s.Put(i, Idle)
  }

  ghost function Run(env: Env, s: State, acts: seq<Action>): State {
    if acts == [] then s else Step(env, Run(env, s, acts[..|acts| - 1]), acts[|acts| - 1])
  }

  lemma Then(env: Env, s: State, acts: seq<Action>, t: State, a: Action) returns (acts': seq<Action>, t': State)
    requires t == Run(env, s, acts)
    ensures t' == Step(env, t, a) == Run(env, s, acts')
  {
    acts', t' := acts + [a], Step(env, t, a);
    assert acts'[..|acts|] == acts;
  }

  // ---- the index agrees with the table below the cursor ----

  ghost predicate Shows(s: State, id: Id)
    requires id in s.table
  {
    id in s.index && s.index[id] == Project(id, s.table[id])
  }

  ghost predicate Agrees(s: State) {
    && (forall id :: id in s.table && s.table[id].updatedAt < s.Cursor() ==> Shows(s, id))
    && s.index.Keys <= s.table.Keys
  }

  /** What a sync under way still owes: once `rows` are upserted, everything older than its start is shown. */
  ghost predicate SyncInv(s: State, y: Sync) {
    match y
    case Idle => true
    case Since(since) => since <= s.Cursor()
    case Timed(since, startedAt) => since <= s.Cursor() <= startedAt <= s.now
    case Upserting(startedAt, rows) =>
      && s.Cursor() <= startedAt <= s.now
      && (forall k :: 0 <= k < |rows| ==>
            rows[k].0 in s.table && (s.table[rows[k].0] == rows[k].1 || s.table[rows[k].0].updatedAt >= startedAt))
      && (forall id :: id in s.table && s.table[id].updatedAt < startedAt ==> Shows(s, id) || (id, s.table[id]) in rows)
  }

  ghost predicate Inv(s: State) {
    && Agrees(s)
    && s.Cursor() <= s.now
    && (forall id :: id in s.table ==> s.table[id].updatedAt <= s.now)
    && (forall i :: SyncInv(s, s.Sync(i)))
    && (forall i, j :: s.Sync(i) != Idle && s.Sync(j) != Idle ==> i == j)
  }

  lemma InvWrite(env: Env, s: State, id: Id, row: Row)
    requires Inv(s)
    ensures Inv(Step(env, s, Write(id, row)))
  {
    var t := Step(env, s, Write(id, row));
    assert forall i :: t.Sync(i) == s.Sync(i);
    assert forall x :: x in t.table && x != id ==> Shows(t, x) == Shows(s, x);
    forall i ensures SyncInv(t, t.Sync(i)) {
      assert SyncInv(s, s.Sync(i));
    }
  }

  lemma InvUpsert(env: Env, s: State, i: nat)
    requires Inv(s) && s.Sync(i).Upserting? && s.Sync(i).rows != []
    ensures Inv(Step(env, s, Upsert(i)))
  {
    var t, y := Step(env, s, Upsert(i)), s.Sync(i);
    assert SyncInv(s, y);
    var (id, r) := y.rows[0];
    assert y.rows == [y.rows[0]] + y.rows[1..];
    assert id in s.table && t.index.Keys == s.index.Keys + {id};
    forall x | x in t.table && t.table[x].updatedAt < y.startedAt ensures Shows(t, x)
        || (x, t.table[x]) in y.rows[1..] {
      if x == id {
        assert s.table[id] == r;
      }
    }
    forall x | x in t.table && t.table[x].updatedAt < t.Cursor() ensures Shows(t, x) {
      assert Shows(s, x);
      assert x == id ==> s.table[id] == r;
    }
    assert forall j :: j != i ==> t.Sync(j) == s.Sync(j) == Idle;
  }

  lemma InvStart(env: Env, s: State, a: Action)
    requires env.exclusive && Inv(s) && (a.Begin? || a.ReadClock? || a.Abort?)
    ensures Inv(Step(env, s, a))
  {
    var t := Step(env, s, a);
    assert SyncInv(s, s.Sync(a.i));
    assert forall j :: j != a.i ==> t.Sync(j) == s.Sync(j);
    assert forall id :: id in s.table ==> Shows(t, id) == Shows(s, id);
    forall j ensures SyncInv(t, t.Sync(j)) {
      assert SyncInv(s, s.Sync(j));
    }
  }

  lemma InvReadOrSave(env: Env, s: State, a: Action)
    requires env.exclusive && Inv(s) && (a.Query? || a.SaveCursor?)
    ensures Inv(Step(env, s, a))
  {
    var t := Step(env, s, a);
    assert SyncInv(s, s.Sync(a.i));
    assert forall j :: j != a.i ==> t.Sync(j) == s.Sync(j);
    assert forall id :: id in s.table ==> Shows(t, id) == Shows(s, id);
    forall j ensures SyncInv(t, t.Sync(j)) {
      assert SyncInv(s, s.Sync(j));
    }
  }

  lemma InvStep(env: Env, s: State, a: Action)
    requires env.exclusive && Inv(s)
    ensures Inv(Step(env, s, a))
    ensures s.Cursor() <= Step(env, s, a).Cursor()
  {
    match a
    case Tick(_) =>
      var t := Step(env, s, a);
      assert forall i :: t.Sync(i) == s.Sync(i);
      assert forall id :: id in s.table ==> Shows(t, id) == Shows(s, id);
      forall i ensures SyncInv(t, t.Sync(i)) {
        assert SyncInv(s, s.Sync(i));
      }
    case Write(id, row) => InvWrite(env, s, id, row);
    case Upsert(i) => if s.Sync(i).Upserting? && s.Sync(i).rows != [] { InvUpsert(env, s, i); }
    case Begin(_, _) => InvStart(env, s, a);
    case ReadClock(_) => InvStart(env, s, a);
    case Abort(_) => InvStart(env, s, a);
    case Query(_, _) => InvReadOrSave(env, s, a);
    case SaveCursor(_) =>
      assert SyncInv(s, s.Sync(a.i));
      InvReadOrSave(env, s, a);
  }

  lemma {:induction false} InvRun(env: Env, s: State, acts: seq<Action>)
    requires env.exclusive && Inv(s)
    ensures Inv(Run(env, s, acts))
  {
    if acts != [] {
      InvRun(env, s, acts[..|acts| - 1]);
      InvStep(env, Run(env, s, acts[..|acts| - 1]), acts[|acts| - 1]);
    }
  }

  // ---- syncs that may overlap: what every run keeps, and what breaks the agreement ----

  /** What a sync under way knows, whatever the others do. */
  ghost predicate WeakSync(s: State, y: Sync) {
    match y
    case Timed(_, startedAt) => startedAt <= s.now
    case Upserting(startedAt, rows) => startedAt <= s.now && forall k :: 0 <= k < |rows| ==> rows[k].0 in s.table
    case _ => true
  }

  ghost predicate WeakInv(s: State) {
    && s.Cursor() <= s.now
    && s.index.Keys <= s.table.Keys
    && (forall id :: id in s.table ==> s.table[id].updatedAt <= s.now)
    && forall i :: WeakSync(s, s.Sync(i))
  }

  lemma WeakStep(env: Env, s: State, a: Action)
    requires WeakInv(s)
    ensures WeakInv(Step(env, s, a))
  {
    var t := Step(env, s, a);
    forall j ensures WeakSync(t, t.Sync(j)) {
      assert WeakSync(s, s.Sync(j));
    }
    if a.Upsert? && t != s {
      assert WeakSync(s, s.Sync(a.i));
      assert s.Sync(a.i).rows[0].0 in s.table;
    } else if a.SaveCursor? {
      assert WeakSync(s, s.Sync(a.i));
    }
  }

  lemma {:induction false} WeakRun(env: Env, s: State, acts: seq<Action>)
    requires WeakInv(s)
    ensures WeakInv(Run(env, s, acts))
  {
    if acts != [] {
      WeakRun(env, s, acts[..|acts| - 1]);
      WeakStep(env, Run(env, s, acts[..|acts| - 1]), acts[|acts| - 1]);
    }
  }

  /** What a sync under way relies on: the rows it did not or will not read are shown. */
  ghost predicate SyncKnows(s: State, y: Sync) {
    match y
    case Idle => true
    case Since(since) => since <= s.now && ShownBelow(s, since)
    case Timed(since, startedAt) => since <= s.now && ShownBelow(s, since)
    case Upserting(startedAt, rows) =>
      forall id :: id in s.table && s.table[id].updatedAt < startedAt ==> Shows(s, id) || (id, s.table[id]) in rows
  }

  ghost predicate ShownBelow(s: State, time: nat) {
    forall id :: id in s.table && s.table[id].updatedAt < time ==> Shows(s, id)
  }

  ghost predicate Knowing(s: State) {
    WeakInv(s) && Agrees(s) && forall i :: SyncKnows(s, s.Sync(i))
  }

  /** The next row of the sync, as it read it, if that is no longer what the row would project to. */
  ghost predicate Outdated(s: State, a: Action) {
    && a.Upsert? && s.Sync(a.i).Upserting? && s.Sync(a.i).rows != []
    && var (id, r) := s.Sync(a.i).rows[0];
       id in s.table && Project(id, r) != Project(id, s.table[id])
  }

  /** It would be put over a document that shows the row as it is now. */
  ghost predicate Spoils(s: State, a: Action) {
    Outdated(s, a) && Shows(s, s.Sync(a.i).rows[0].0)
  }

  lemma KnowingTick(env: Env, s: State, d: nat)
    requires Knowing(s)
    ensures Knowing(Step(env, s, Tick(d)))
  {
    var t := Step(env, s, Tick(d));
    WeakStep(env, s, Tick(d));
    assert forall x :: x in s.table ==> Shows(t, x) == Shows(s, x);
    forall j ensures SyncKnows(t, t.Sync(j)) {
      assert t.Sync(j) == s.Sync(j) && SyncKnows(s, s.Sync(j));
    }
  }

  lemma KnowingWrite(env: Env, s: State, id: Id, row: Row)
    requires Knowing(s)
    ensures Knowing(Step(env, s, Write(id, row)))
  {
    var t := Step(env, s, Write(id, row));
    WeakStep(env, s, Write(id, row));
    assert forall x :: x in s.table && x != id ==> Shows(t, x) == Shows(s, x);
    forall j ensures SyncKnows(t, t.Sync(j)) {
      assert t.Sync(j) == s.Sync(j) && SyncKnows(s, s.Sync(j)) && WeakSync(s, s.Sync(j));
    }
  }

  lemma KnowingUpsert(env: Env, s: State, i: nat)
    requires Knowing(s) && s.Sync(i).Upserting? && s.Sync(i).rows != [] && !Spoils(s, Upsert(i))
    ensures Knowing(Step(env, s, Upsert(i)))
  {
    var t := Step(env, s, Upsert(i));
    var (id, r) := s.Sync(i).rows[0];
    WeakStep(env, s, Upsert(i));
    assert WeakSync(s, s.Sync(i)) && id in s.table;
    assert forall x :: x in s.table && Shows(s, x) ==> Shows(t, x);
    forall j ensures SyncKnows(t, t.Sync(j)) {
      assert SyncKnows(s, s.Sync(j));
      if j == i {
        KnowingRest(s, t, i);
      }
    }
  }

  /** The sync that upserted its next row still relies on the same rows. */
  lemma KnowingRest(s: State, t: State, i: nat)
    requires s.Sync(i).Upserting? && s.Sync(i).rows != [] && SyncKnows(s, s.Sync(i)) && t.table == s.table
    requires t.Sync(i) == s.Sync(i).(rows := s.Sync(i).rows[1..])
    requires forall x :: x in s.table && Shows(s, x) ==> Shows(t, x)
    requires var (id, r) := s.Sync(i).rows[0]; id in s.table && id in t.index && t.index[id] == Project(id, r)
    ensures SyncKnows(t, t.Sync(i))
  {
    var rows := s.Sync(i).rows;
    assert rows == [rows[0]] + rows[1..];
    forall x | x in t.table && t.table[x].updatedAt < t.Sync(i).startedAt
      ensures Shows(t, x) || (x, t.table[x]) in rows[1..]
    {
      if !Shows(s, x) && (x, s.table[x]) == rows[0] {
        assert Shows(t, x);
      }
    }
  }

  lemma KnowingStart(env: Env, s: State, a: Action)
    requires Knowing(s) && (a.Begin? || a.ReadClock? || a.Abort?)
    ensures Knowing(Step(env, s, a))
  {
    var t := Step(env, s, a);
    WeakStep(env, s, a);
    assert SyncKnows(s, s.Sync(a.i)) && WeakSync(s, s.Sync(a.i));
    assert forall x :: x in s.table ==> Shows(t, x) == Shows(s, x);
    forall j ensures SyncKnows(t, t.Sync(j)) {
      assert j != a.i ==> t.Sync(j) == s.Sync(j) && SyncKnows(s, s.Sync(j));
    }
  }

  lemma KnowingQuery(env: Env, s: State, a: Action)
    requires Knowing(s) && a.Query?
    ensures Knowing(Step(env, s, a))
  {
    var t := Step(env, s, a);
    WeakStep(env, s, a);
    assert SyncKnows(s, s.Sync(a.i)) && WeakSync(s, s.Sync(a.i));
    assert forall x :: x in s.table ==> Shows(t, x) == Shows(s, x);
    forall j ensures SyncKnows(t, t.Sync(j)) {
      assert j != a.i ==> t.Sync(j) == s.Sync(j) && SyncKnows(s, s.Sync(j));
    }
  }

  lemma KnowingSave(env: Env, s: State, a: Action)
    requires Knowing(s) && a.SaveCursor?
    ensures Knowing(Step(env, s, a))
  {
    var t := Step(env, s, a);
    WeakStep(env, s, a);
    assert SyncKnows(s, s.Sync(a.i)) && WeakSync(s, s.Sync(a.i));
    assert forall x :: x in s.table ==> Shows(t, x) == Shows(s, x);
    forall j ensures SyncKnows(t, t.Sync(j)) {
      assert j != a.i ==> t.Sync(j) == s.Sync(j) && SyncKnows(s, s.Sync(j));
    }
  }

  lemma KnowingStep(env: Env, s: State, a: Action)
    requires Knowing(s) && !Spoils(s, a)
    ensures Knowing(Step(env, s, a))
  {
    match a
    case Tick(d) => KnowingTick(env, s, d);
    case Write(id, row) => KnowingWrite(env, s, id, row);
    case Upsert(i) => if s.Sync(i).Upserting? && s.Sync(i).rows != [] { KnowingUpsert(env, s, i); }
    case Begin(_, _) => KnowingStart(env, s, a);
    case ReadClock(_) => KnowingStart(env, s, a);
    case Query(_, _) => KnowingQuery(env, s, a);
    case SaveCursor(_) => KnowingSave(env, s, a);
    case Abort(_) => KnowingStart(env, s, a);
  }

  /** However syncs overlap and break off: the agreement holds in every run in which no upsert spoils a document. */
  lemma {:induction false} AgreesUnlessSpoilt(env: Env, acts: seq<Action>)
    requires forall k :: 0 <= k < |acts| ==> !Spoils(Run(env, Init, acts[..k]), acts[k])
    ensures Knowing(Run(env, Init, acts)) && Agrees(Run(env, Init, acts))
  {
    if acts != [] {
      var n := |acts| - 1;
      forall k | 0 <= k < n ensures !Spoils(Run(env, Init, acts[..n][..k]), acts[..n][k]) {
        assert acts[..n][..k] == acts[..k];
      }
      AgreesUnlessSpoilt(env, acts[..n]);
      KnowingStep(env, Run(env, Init, acts[..n]), acts[n]);
    }
  }

  /** So a search finds every row older than the cursor as it is now, in every field, and nothing that is no row. */
  lemma EveryFieldShown(env: Env, acts: seq<Action>)
    requires forall k :: 0 <= k < |acts| ==> !Spoils(Run(env, Init, acts[..k]), acts[k])
    ensures var s := Run(env, Init, acts);
            && (forall id :: id in s.table && s.table[id].updatedAt < s.Cursor() ==>
                  id in s.index && Tells(s.index[id], id, s.table[id]))
            && s.index.Keys <= s.table.Keys
  {
    AgreesUnlessSpoilt(env, acts);
    var s := Run(env, Init, acts);
    forall id | id in s.table && s.table[id].updatedAt < s.Cursor()
      ensures id in s.index && Tells(s.index[id], id, s.table[id])
    {
      assert Shows(s, id);
      OnlyProjectionTells(s.index[id], id, s.table[id]);
    }
  }

  /** From such a run one call ends the agreement, exactly when it spoils the document of a row below the cursor. */
  lemma DisagreesIff(env: Env, s: State, a: Action)
    requires Knowing(s)
    ensures !Agrees(Step(env, s, a)) <==>
            Spoils(s, a) && s.table[s.Sync(a.i).rows[0].0].updatedAt < s.Cursor()
  {
    if Spoils(s, a) {
      var t, id := Step(env, s, a), s.Sync(a.i).rows[0].0;
      assert !Shows(t, id) && t.Cursor() == s.Cursor() && t.table == s.table;
      assert forall x :: x in s.table && x != id ==> Shows(t, x) == Shows(s, x);
      WeakStep(env, s, a);
    } else {
      KnowingStep(env, s, a);
    }
  }

  /** A row below the cursor that the index shows wrongly, and that no sync under way will reach. */
  ghost predicate Stuck(s: State, id: Id) {
    && id in s.table && s.table[id].updatedAt < s.Cursor() <= s.now && !Shows(s, id)
    && forall i :: Misses(s.Sync(i), id, s.table[id].updatedAt)
  }

  ghost predicate Misses(y: Sync, id: Id, updatedAt: nat) {
    match y
    case Idle => true
    case Since(since) => since > updatedAt
    case Timed(since, startedAt) => since > updatedAt && startedAt > updatedAt
    case Upserting(startedAt, rows) => startedAt > updatedAt && forall k :: 0 <= k < |rows| ==> rows[k].0 != id
  }

  lemma StuckStep(env: Env, s: State, a: Action, id: Id)
    requires WeakInv(s) && Stuck(s, id) && !(a.Write? && a.id == id) && !(a.Begin? && a.full)
    ensures Stuck(Step(env, s, a), id)
  {
    var t := Step(env, s, a);
    WeakStep(env, s, a);
    forall j ensures Misses(t.Sync(j), id, t.table[id].updatedAt) {
      assert Misses(s.Sync(j), id, s.table[id].updatedAt);
    }
    if a.Upsert? || a.SaveCursor? {
      assert Misses(s.Sync(a.i), id, s.table[id].updatedAt);
    }
  }

  /** Incremental syncs never mend it: the document stays wrong until its row is written again or a full sync begins. */
  lemma {:induction false} StuckRun(env: Env, s: State, acts: seq<Action>, id: Id)
    requires WeakInv(s) && Stuck(s, id)
    requires forall k :: 0 <= k < |acts| ==> !(acts[k].Write? && acts[k].id == id) && !(acts[k].Begin? && acts[k].full)
    ensures Stuck(Run(env, s, acts), id)
  {
    if acts != [] {
      StuckRun(env, s, acts[..|acts| - 1], id);
      WeakRun(env, s, acts[..|acts| - 1]);
      StuckStep(env, Run(env, s, acts[..|acts| - 1]), acts[|acts| - 1], id);
    }
  }

  /** The calls of a sync up to its query, nothing else running. */
  lemma BeginSync(env: Env, s: State, acts0: seq<Action>, t0: State, i: nat, full: bool, rows: Rows)
    returns (acts: seq<Action>, t: State)
    requires t0 == Run(env, s, acts0) && t0.Sync(i) == Idle && (env.exclusive ==> forall j :: t0.Sync(j) == Idle)
    requires Matches(t0.table, if full then EPOCH else t0.Cursor(), rows)
    ensures t == Run(env, s, acts) && t == t0.Put(i, Upserting(t0.now, rows))
  {
    acts, t := Then(env, s, acts0, t0, Begin(i, full));
    assert t == t0.Put(i, Since(if full then EPOCH else t0.Cursor()));
    acts, t := Then(env, s, acts, t, ReadClock(i));
    acts, t := Then(env, s, acts, t, Query(i, rows));
    assert t.syncs == t0.syncs[i := Upserting(t0.now, rows)];
  }

  /** Two overlapping syncs: the older one overwrites what the newer one showed, and dies before it saves its cursor. */
  lemma OverlapLeavesStaleDocument() returns (acts: seq<Action>)
    ensures Stuck(Run(Env(false), Init, acts), "p") && !Agrees(Run(Env(false), Init, acts))
  {
    var env, p: Id := Env(false), "p";
    var v1 := Stamped(Brand("old", "", true, true), 0);
    var v2 := Stamped(Brand("new", "", true, true), 2);
    var t := Init;
    acts, t := Then(env, Init, [], t, Write(p, v1.row));
    acts, t := Then(env, Init, acts, t, Tick(1));
    acts, t := Then(env, Init, acts, t, Begin(0, false));
    acts, t := Then(env, Init, acts, t, ReadClock(0));
    assert t.table == map[p := v1];
    acts, t := Then(env, Init, acts, t, Query(0, [(p, v1)]));
    assert t.Sync(0) == Upserting(1, [(p, v1)]);
    acts, t := Then(env, Init, acts, t, Tick(1));
    acts, t := Then(env, Init, acts, t, Write(p, v2.row));
    assert t.table == map[p := v2];
    acts, t := Then(env, Init, acts, t, Tick(1));
    assert forall i :: i != 0 ==> t.Sync(i) == Idle;
    acts := NewerSyncOvertakes(env, acts, t, p, v1, v2);
  }

  lemma NewerSyncOvertakes(env: Env, acts0: seq<Action>, t0: State, p: Id, v1: Stamped, v2: Stamped)
    returns (acts: seq<Action>)
    requires env == Env(false) && t0 == Run(env, Init, acts0)
    requires t0.now == 3 && t0.table == map[p := v2] && t0.cursor == None
    requires t0.Sync(0) == Upserting(1, [(p, v1)]) && forall i :: i != 0 ==> t0.Sync(i) == Idle
    requires v2.updatedAt == 2 && Project(p, v1) != Project(p, v2)
    ensures Stuck(Run(env, Init, acts), p)
  {
    var t;
    assert Matches(t0.table, EPOCH, [(p, v2)]);
    acts, t := BeginSync(env, Init, acts0, t0, 1, false, [(p, v2)]);
    assert t.Sync(0) == Upserting(1, [(p, v1)]);
    acts, t := Then(env, Init, acts, t, Upsert(1));
    assert t.Sync(1) == Upserting(3, []) && t.Sync(0) == Upserting(1, [(p, v1)]);
    acts, t := Then(env, Init, acts, t, SaveCursor(1));
    forall i | i != 0 ensures t.Sync(i) == Idle {
      assert t0.Sync(i) == Idle;
    }
    acts := LateUpsert(env, acts, t, p, v1, v2);
  }

  lemma LateUpsert(env: Env, acts0: seq<Action>, t0: State, p: Id, v1: Stamped, v2: Stamped) returns (acts: seq<Action>)
    requires t0 == Run(env, Init, acts0) && t0.Sync(0) == Upserting(1, [(p, v1)]) && t0.cursor == Some(3) && t0.now == 3
    requires t0.table == map[p := v2] && v2.updatedAt == 2 && Project(p, v1) != Project(p, v2)
    requires forall i :: i != 0 ==> t0.Sync(i) == Idle
    ensures Stuck(Run(env, Init, acts), p)
  {
    var t;
    acts, t := Then(env, Init, acts0, t0, Upsert(0));
    assert t.index[p] == Project(p, v1) && !Shows(t, p);
    acts, t := Then(env, Init, acts, t, Abort(0));
    forall i ensures t.Sync(i) == Idle {
      assert i != 0 ==> t0.Sync(i) == Idle;
    }
  }

  /** In every run the index agrees with the table below the cursor, exactly when syncs never overlap. */
  lemma AgreesIffExclusive(env: Env)
    ensures (forall acts :: Agrees(Run(env, Init, acts))) <==> env.exclusive
  {
    if env.exclusive {
      forall acts ensures Agrees(Run(env, Init, acts)) {
        InvRun(env, Init, acts);
      }
    } else {
      var acts := OverlapLeavesStaleDocument();
    }
  }

  // ---- a sync nothing disturbs ----

  function Upserted(index: map<Id, Doc>, rows: Rows): map<Id, Doc> {
    if rows == [] then index else Upserted(index,
        rows[..|rows| - 1])[rows[|rows| - 1].0 := Project(rows[|rows| - 1].0, rows[|rows| - 1].1)]
  }

  lemma {:induction false} UpsertedShows(index: map<Id, Doc>, rows: Rows, table: map<Id, Stamped>, id: Id)
    requires forall k :: 0 <= k < |rows| ==> rows[k].0 in table && table[rows[k].0] == rows[k].1
    ensures var r := Upserted(index, rows);
            if exists k :: 0 <= k < |rows| && rows[k].0 == id then id in r && r[id] == Project(id, table[id])
            else (id in r <==> id in index) && (id in r ==> r[id] == index[id])
  {
    if rows != [] {
      UpsertedShows(index, rows[..|rows| - 1], table, id);
    }
  }

  /**
    With no writer and no other sync, the rows at or after any cursor the index agrees with are
    enough: the result is the whole table's projection, the same as from the epoch.
   */
  lemma IncrementalEqualsFull(s: State, since: nat, rows: Rows)
    requires s.index.Keys <= s.table.Keys && Matches(s.table, since, rows)
    requires since == EPOCH || (since == s.Cursor() && Agrees(s))
    ensures Upserted(s.index, rows) == Mirror(s.table)
  {
    forall id ensures id in Upserted(s.index, rows) <==> id in s.table
      ensures id in s.table ==> Upserted(s.index, rows)[id] == Project(id, s.table[id])
    {
      UpsertedShows(s.index, rows, s.table, id);
      if id in s.table {
        if s.table[id].updatedAt >= since {
          assert (id, s.table[id]) in rows;
        } else {
          assert Shows(s, id);
        }
      }
    }
  }

  /** Exactly the rows of the table have a document, and it says what the row says. */
  ghost predicate ShowsAll(index: map<Id, Doc>, table: map<Id, Stamped>) {
    index.Keys == table.Keys && forall id :: id in table ==> Tells(index[id], id, table[id])
  }

  /** The mirror is the one index that shows all. */
  lemma OnlyMirrorShowsAll(index: map<Id, Doc>, table: map<Id, Stamped>)
    ensures ShowsAll(index, table) <==> index == Mirror(table)
  {
    if ShowsAll(index, table) {
      forall id | id in table ensures index[id] == Mirror(table)[id] {
        OnlyProjectionTells(index[id], id, table[id]);
      }
    }
  }

  /** A sync leaves the documents of the rows it did not read as they were. */
  lemma OlderStay(index: map<Id, Doc>, rows: Rows, table: map<Id, Stamped>, since: nat)
    requires Matches(table, since, rows)
    ensures var r := Upserted(index, rows);
            forall id :: id !in table || table[id].updatedAt < since ==>
              (id in r <==> id in index) && (id in r ==> r[id] == index[id])
  {
    forall id | id !in table || table[id].updatedAt < since
      ensures var r := Upserted(index, rows); (id in r <==> id in index) && (id in r ==> r[id] == index[id])
    {
      UpsertedShows(index, rows, table, id);
    }
  }

  /** The machine's upserts, one at a time, write what `Upserted` says. */
  lemma {:induction false} UpsertAll(env: Env, s: State, acts: seq<Action>, t: State, i: nat, done: Rows,
      index: map<Id, Doc>)
    returns (acts': seq<Action>, t': State)
    requires t == Run(env, s, acts) && t.Sync(i).Upserting? && t.index == Upserted(index, done)
    ensures t' == Run(env, s, acts') && t'.Sync(i) == Upserting(t.Sync(i).startedAt, [])
    ensures t'.index == Upserted(index, done + t.Sync(i).rows)
    ensures t'.table == t.table && t'.now == t.now && t'.cursor == t.cursor
    decreases |t.Sync(i).rows|
  {
    var rows := t.Sync(i).rows;
    if rows == [] {
      acts', t' := acts, t;
      assert done + [] == done;
    } else {
      acts', t' := Then(env, s, acts, t, Upsert(i));
      assert (done + [rows[0]])[..|done|] == done;
      assert done + [rows[0]] + rows[1..] == done + rows;
      acts', t' := UpsertAll(env, s, acts', t', i, done + [rows[0]], index);
    }
  }

  /**
    With no other sync under way, an undisturbed incremental sync rebuilds the whole index from any state that agrees,
    and a full one from any state at all, so that it also mends what overlapping syncs left behind.
   */
  lemma UndisturbedSync(env: Env, s: State, i: nat, full: bool, rows: Rows) returns (acts: seq<Action>)
    requires WeakInv(s) && (full || Agrees(s)) && (forall j :: s.Sync(j) == Idle)
    requires Matches(s.table, if full then EPOCH else s.Cursor(), rows)
    ensures var t := Run(env, s, acts);
            t.index == Mirror(s.table) && t.table == s.table && t.cursor == Some(s.now) && t.Sync(i) == Idle
  {
    var t := s;
    acts, t := BeginSync(env, s, [], t, i, full, rows);
    acts, t := UpsertAll(env, s, acts, t, i, [], s.index);
    assert [] + rows == rows;
    acts, t := Then(env, s, acts, t, SaveCursor(i));
    IncrementalEqualsFull(s, if full then EPOCH else s.Cursor(), rows);
  }

  // ---- the service ----

  class ReindexService {
    var index: map<Id, Doc>
    var cursor: Option<nat>
    ghost var table: map<Id, Stamped>   // the collection's table, written elsewhere
    ghost var now: nat

    ghost function View(): State
      reads this
    {
      State(now, table, index, cursor, map[])
    }

    constructor ()
      ensures View() == Init && WeakInv(View())
    {
      index, cursor, table, now := map[], None, map[], 0;
    }

    /** The document that `upsertDocument` is given for a row. */
    method UpsertDocument(id: Id, r: Stamped)
      modifies this`index
      ensures index == old(index)[id := Project(id, r)]
    {
      match r.row
      case Product(name, description, slug, brandId, price, isActive) =>
        var text := if description.Some? then description.value else "";
        index := index[id := ProductDoc(id, name, text, slug, brandId, price, isActive, r.updatedAt)];
      case Brand(name, slug, isVerified, isActive) =>
        index := index[id := BrandDoc(id, name, slug, isVerified, isActive, r.updatedAt)];
      case Drop(title, description, slug, brandId, status) =>
        var text := if description.Some? then description.value else "";
        index := index[id := DropDoc(id, title, text, slug, brandId, status, r.updatedAt)];
    }

    /**
      One collection, from `since`, started at `startedAt`, given what the query returned; nothing interferes.
      From the epoch this rebuilds any index, from the cursor one that agrees below it.
     */
    method SyncCollection(since: nat, startedAt: nat, rows: Rows) returns (count: nat)
      requires WeakInv(View()) && startedAt == now && Matches(table, since, rows)
      modifies this`index, this`cursor
      ensures index == Upserted(old(index), rows) && cursor == Some(startedAt) && count == |rows|
      ensures since == EPOCH || (since == old(View()).Cursor() && Agrees(old(View()))) ==>
                index == Mirror(table) && ShowsAll(index, table) && Agrees(View())
      ensures forall id :: id in table && table[id].updatedAt >= since ==>
                id in index && Tells(index[id], id, table[id])
      ensures forall id :: id !in table || table[id].updatedAt < since ==>
                (id in index <==> id in old(index)) && (id in index ==> index[id] == old(index[id]))
    {
      for k := 0 to |rows|
        invariant index == Upserted(old(index), rows[..k])
        invariant cursor == old(cursor)
      {
        assert rows[..k + 1][..k] == rows[..k];
        UpsertDocument(rows[k].0, rows[k].1);
      }
      assert rows[..|rows|] == rows;
      cursor := Some(startedAt);
      OlderStay(old(index), rows, table, since);
      forall id | id in table && table[id].updatedAt >= since ensures id in index && Tells(index[id], id, table[id]) {
        assert (id, table[id]) in rows;
        UpsertedShows(old(index), rows, table, id);
        OnlyProjectionTells(index[id], id, table[id]);
      }
      OnlyMirrorShowsAll(index, table);
      if since == EPOCH || (since == old(View()).Cursor() && Agrees(old(View()))) {
        IncrementalEqualsFull(old(View()), since, rows);
        assert forall id :: id in table ==> Shows(View(), id);
      }
      return |rows|;
    }

    method ReindexAll(startedAt: nat, rows: Rows)
      requires WeakInv(View()) && startedAt == now && Matches(table, EPOCH, rows)
      modifies this`index, this`cursor
      ensures index == Mirror(table) && cursor == Some(startedAt) && Agrees(View())
      ensures ShowsAll(index, table)
    {
      var _ := SyncCollection(EPOCH, startedAt, rows);
    }

    method ReindexIncremental(startedAt: nat, rows: Rows) returns (count: nat)
      requires WeakInv(View()) && startedAt == now && Matches(table, cursor.GetOr(EPOCH), rows)
      modifies this`index, this`cursor
      ensures index == Upserted(old(index), rows) && cursor == Some(startedAt) && count == |rows|
      ensures Agrees(old(View())) ==> index == Mirror(table) && ShowsAll(index, table) && Agrees(View())
    {
      count := SyncCollection(cursor.GetOr(EPOCH), startedAt, rows);
    }
  }
}
