/**
 * The tasks table as gorm presents it to the handlers, without SQL: every row
 * ever inserted, keyed by its id, and the next id the primary-key sequence
 * hands out. Soft-deleted rows stay in `rows`; every read filters them out,
 * as gorm adds `deleted_at IS NULL` to every query on a model with a
 * `DeletedAt` field.
 */
module Store {
  import opened Wrappers
  import opened Models

  datatype Db = Db(rows: map<int, Task>, nextId: nat)

  /** Ids are positive, below the next id to hand out, and each row knows its own key. */
  ghost predicate Valid(db: Db) {
    && db.nextId >= 1
    && forall k :: k in db.rows ==> 1 <= k < db.nextId && db.rows[k].id == k
  }

  /** A row that ordinary reads see: present and not soft-deleted. */
  predicate Visible(db: Db, id: int) {
    id in db.rows && !db.rows[id].deleted
  }

  /** The visible rows among ids 1..n, in id order. */
  function LiveUpTo(rows: map<int, Task>, n: int): seq<Task>
    decreases n
  {
    if n <= 0 then []
    else LiveUpTo(rows, n - 1) + (if n in rows && !rows[n].deleted then [rows[n]] else [])
  }

  /** The ids of the visible rows. */
  function VisibleIds(db: Db): set<int> {
    set id | id in db.rows && !db.rows[id].deleted
  }

  /**
   * `Find(&tasks)`: every visible row, each once, as it is stored. The query
   * has no ORDER BY, so the database may list the rows in any order; the
   * model lists them in id order, and the lemmas below state the list only
   * up to order (membership, multiset, no id twice).
   */
  function Find(db: Db): (r: seq<Task>)
    ensures Valid(db) ==> forall i :: 0 <= i < |r| ==> Visible(db, r[i].id) && db.rows[r[i].id] == r[i]
    ensures Valid(db) ==> forall id :: Visible(db, id) ==> db.rows[id] in r
    ensures Valid(db) ==> forall i, j :: 0 <= i < j < |r| ==> r[i].id != r[j].id
  {
    LiveUpToListed(db.rows, db.nextId - 1);
    Listed(db)
  }

  /** The model's listing: the visible rows in id order. */
  function Listed(db: Db): seq<Task> {
    LiveUpTo(db.rows, db.nextId - 1)
  }

  /** `Model(&Task{}).Count(&count)`: the number of visible rows; zero exactly when no row is visible. */
  function Count(db: Db): (r: nat)
    ensures Valid(db) ==> r == |VisibleIds(db)|
    ensures Valid(db) ==> (r == 0 <==> forall id :: !Visible(db, id))
  {
    LiveUpToCount(db.rows, db.nextId - 1);
    assert Valid(db) ==> VisibleIds(db) == set k | 1 <= k <= db.nextId - 1 && k in db.rows && !db.rows[k].deleted;
    |Find(db)|
  }

  /** `First(&task, id)`: the visible row with primary key `id`, if any. */
  function First(db: Db, id: int): (r: Option<Task>)
    ensures r.Some? <==> Visible(db, id)
    ensures r.Some? ==> r.value == db.rows[id]
  {
    if Visible(db, id) then Some(db.rows[id]) else None
  }

  datatype Created = Created(db: Db, task: Task)

  /**
   * `Create(&task)`: the store, not the caller, chooses the id — one that no
   * row, visible or deleted, has had — and writes every other field as given.
   */
  function Create(db: Db, t: Task): (r: Created)
    ensures Valid(db) ==> Valid(r.db)
    ensures Valid(db) ==> r.task.id !in db.rows && r.task.id >= 1
    ensures r.task == t.(id := r.task.id)
    ensures r.db.rows == db.rows[r.task.id := r.task] && r.db.nextId > db.nextId
  {
    var task := t.(id := db.nextId);
    Created(Db(db.rows[task.id := task], db.nextId + 1), task)
  }

  /** `Create(&tasks)` on a slice: one insert statement, ids assigned in slice order. */
  function CreateAll(db: Db, ts: seq<Task>): (r: Db)
    ensures Valid(db) ==> Valid(r)
    ensures r.nextId == db.nextId + |ts|
    decreases |ts|
  {
    if |ts| == 0 then db else CreateAll(Create(db, ts[0]).db, ts[1..])
  }

  /** `Save(&task)`: replaces the whole row with primary key `t.id` and touches no other. */
  function Save(db: Db, t: Task): (r: Db)
    ensures Valid(db) && t.id in db.rows ==> Valid(r)
    ensures r.rows == db.rows[t.id := t] && r.nextId == db.nextId
  {
    Db(db.rows[t.id := t], db.nextId)
  }

  /** `Delete(&task)` on a model with `DeletedAt`: marks the row, which stays in the table. */
  function Delete(db: Db, id: int): (r: Db)
    ensures Valid(db) ==> Valid(r)
    ensures !Visible(r, id)
    ensures r.rows.Keys == db.rows.Keys && r.nextId == db.nextId
    ensures forall k :: k in db.rows && k != id ==> r.rows[k] == db.rows[k]
  {
    if id in db.rows then Db(db.rows[id := db.rows[id].(deleted := true)], db.nextId) else db
  }

  // ---------------------------------------------------------------------------
  // What reads see

  lemma {:induction false} LiveUpToMembers(rows: map<int, Task>, n: int, t: Task)
    requires forall k :: k in rows ==> rows[k].id == k
    ensures t in LiveUpTo(rows, n) <==> 1 <= t.id <= n && t.id in rows && rows[t.id] == t && !t.deleted
    decreases n
  {
    if n > 0 {
      LiveUpToMembers(rows, n - 1, t);
    }
  }

  lemma {:induction false} LiveUpToAscending(rows: map<int, Task>, n: int)
    requires forall k :: k in rows ==> rows[k].id == k
    ensures forall i :: 0 <= i < |LiveUpTo(rows, n)| ==> 1 <= LiveUpTo(rows, n)[i].id <= n
    ensures forall i, j :: 0 <= i < j < |LiveUpTo(rows, n)| ==> LiveUpTo(rows, n)[i].id < LiveUpTo(rows, n)[j].id
    decreases n
  {
    if n > 0 {
      LiveUpToAscending(rows, n - 1);
    }
  }

  /** On a well-keyed table the list holds exactly the visible rows among 1..n, none twice. */
  lemma LiveUpToListed(rows: map<int, Task>, n: int)
    ensures (forall k :: k in rows ==> 1 <= k <= n && rows[k].id == k) ==>
              && (forall i :: 0 <= i < |LiveUpTo(rows, n)| ==>
                    LiveUpTo(rows, n)[i].id in rows && !rows[LiveUpTo(rows, n)[i].id].deleted &&
                    rows[LiveUpTo(rows, n)[i].id] == LiveUpTo(rows, n)[i])
              && (forall id :: id in rows && !rows[id].deleted ==> rows[id] in LiveUpTo(rows, n))
              && (forall i, j :: 0 <= i < j < |LiveUpTo(rows, n)| ==> LiveUpTo(rows, n)[i].id != LiveUpTo(rows, n)[j].id)
  {
    if forall k :: k in rows ==> 1 <= k <= n && rows[k].id == k {
      forall i | 0 <= i < |LiveUpTo(rows, n)|
        ensures LiveUpTo(rows, n)[i].id in rows && !rows[LiveUpTo(rows, n)[i].id].deleted &&
                rows[LiveUpTo(rows, n)[i].id] == LiveUpTo(rows, n)[i]
      {
        LiveUpToMembers(rows, n, LiveUpTo(rows, n)[i]);
      }
      forall id | id in rows && !rows[id].deleted ensures rows[id] in LiveUpTo(rows, n) {
        LiveUpToMembers(rows, n, rows[id]);
      }
      LiveUpToAscending(rows, n);
    }
  }

  /** The list among ids 1..n is as long as the set of visible ids among them. */
  lemma {:induction false} LiveUpToCount(rows: map<int, Task>, n: int)
    ensures |LiveUpTo(rows, n)| == |set k | 1 <= k <= n && k in rows && !rows[k].deleted|
    decreases n
  {
    var s := set k | 1 <= k <= n && k in rows && !rows[k].deleted;
    if n <= 0 {
      assert s == {};
    } else {
      LiveUpToCount(rows, n - 1);
      var p := set k | 1 <= k <= n - 1 && k in rows && !rows[k].deleted;
      if n in rows && !rows[n].deleted {
        assert s == p + {n};
      } else {
        assert s == p;
      }
    }
  }

  lemma {:induction false} LiveUpToUnaffected(rows: map<int, Task>, n: int, k: int, v: Task)
    requires n < k
    ensures LiveUpTo(rows[k := v], n) == LiveUpTo(rows, n)
    decreases n
  {
    if n > 0 {
      LiveUpToUnaffected(rows, n - 1, k, v);
    }
  }

  /** A created row is listed along with every row that was already visible, and nothing else is added. */
  lemma FindAfterCreate(db: Db, t: Task)
    requires Valid(db)
    requires !t.deleted
    ensures multiset(Find(Create(db, t).db)) == multiset(Find(db)) + multiset{Create(db, t).task}
  {
    var r := Create(db, t);
    LiveUpToUnaffected(db.rows, db.nextId - 1, db.nextId, r.task);
    assert Listed(r.db) == Listed(db) + [r.task];
  }

  /** The rows a batch insert writes: the batch, in order, with consecutive ids from `first`. */
  function Assigned(ts: seq<Task>, first: nat): (r: seq<Task>)
    ensures |r| == |ts|
    ensures forall i :: 0 <= i < |ts| ==> r[i] == ts[i].(id := first + i)
    decreases |ts|
  {
    if |ts| == 0 then [] else [ts[0].(id := first)] + Assigned(ts[1..], first + 1)
  }

  lemma ConcatAssoc(a: seq<Task>, b: seq<Task>, c: seq<Task>)
    ensures a + b + c == a + (b + c)
  {
  }

  lemma AssignedCons(ts: seq<Task>, first: nat)
    requires |ts| > 0
    ensures Assigned(ts, first) == [ts[0].(id := first)] + Assigned(ts[1..], first + 1)
  {
  }

  /** In the model's listing order a batch is appended after the rows visible before. */
  lemma {:induction false} ListedAfterCreateAll(db: Db, ts: seq<Task>)
    requires Valid(db)
    requires forall i :: 0 <= i < |ts| ==> !ts[i].deleted
    ensures Listed(CreateAll(db, ts)) == Listed(db) + Assigned(ts, db.nextId)
    decreases |ts|
  {
    if |ts| > 0 {
      var c := Create(db, ts[0]);
      LiveUpToUnaffected(db.rows, db.nextId - 1, db.nextId, c.task);
      assert Listed(c.db) == Listed(db) + [c.task];
      ListedAfterCreateAll(c.db, ts[1..]);
      assert c.task == ts[0].(id := db.nextId) && c.db.nextId == db.nextId + 1;
      AssignedCons(ts, db.nextId);
      assert CreateAll(db, ts) == CreateAll(c.db, ts[1..]);
      ConcatAssoc(Listed(db), [c.task], Assigned(ts[1..], c.db.nextId));
    }
  }

  /** After a batch of live rows, the list holds the rows visible before and the batch with its assigned ids. */
  lemma FindAfterCreateAll(db: Db, ts: seq<Task>)
    requires Valid(db)
    requires forall i :: 0 <= i < |ts| ==> !ts[i].deleted
    ensures multiset(Find(CreateAll(db, ts))) == multiset(Find(db)) + multiset(Assigned(ts, db.nextId))
  {
    ListedAfterCreateAll(db, ts);
  }
}
