/**
 * A database table with a unique key, as the repositories use it through gorm and raw
 * SQL. The state is a map from key to row (so at most one row per key, which is what
 * the unique indexes enforce) and the next value of the id sequence. Soft-deleted rows
 * stay in the map with `deletedAt` set; every gorm read skips them.
 *
 * Each write path is specified by a function on `Snapshot`s; the `KeyedTable` class
 * runs it step by step and is proved to end in the state the function describes.
 */
module Tables {
  import opened Wrappers
  import opened Domain
  import Seqs

  datatype Snapshot<K(==), D> = Snapshot(rows: map<K, Row<K, D>>, nextId: nat)

  /** Every row is filed under its own key. */
  ghost predicate KeysMatch<K, D>(rows: map<K, Row<K, D>>)
  {
    forall k :: k in rows ==> rows[k].key == k
  }

  /** `id` is a non-zero primary key that a row other than the one under `self` already holds. */
  predicate IdTaken<K(==), D>(rows: map<K, Row<K, D>>, id: nat, self: Option<K>)
  {
    id != 0 && exists k :: k in rows && Some(k) != self && rows[k].id == id
  }

  datatype DbError = QueryFailed | NotFound | DuplicateKey

  /** "failed to upsert <key>: ..." from a statement, or a failed begin/commit. */
  datatype TxError<K> = StatementFailed(key: K) | TransactionFailed

  /**
   * What the database does to a transaction: the positions of the statements it
   * refuses (counting from 0) and whether begin or commit fails.
   */
  datatype DbFaults = DbFaults(rejected: set<nat>, txFails: bool)

  /** One statement per record; None when the database refuses it on its own terms. */
  type Statement<!K(==), !D> = (Snapshot<K, D>, Row<K, D>) -> Option<Snapshot<K, D>>

  // ---------------------------------------------------------------- INSERT ... ON CONFLICT

  /**
   * ON CONFLICT (key) DO UPDATE SET <payload columns>, updated_at, deleted_at: the stored
   * row keeps its id, key and created_at; every other column comes from the record.
   */
  function OnConflictUpdate<K(==), D>(existing: Row<K, D>, incoming: Row<K, D>): (r: Row<K, D>)
    ensures r == incoming.(id := existing.id, key := existing.key, createdAt := existing.createdAt)
  {
    existing.(data := incoming.data, updatedAt := incoming.updatedAt, deletedAt := incoming.deletedAt)
  }

  /**
   * One INSERT ... ON CONFLICT statement, whose column list leaves out id. PostgreSQL
   * evaluates the serial default (nextval) for the proposed row before it detects the
   * conflict, so every statement draws a sequence value; only a new row keeps it.
   */
  function Upserted<K(==), D>(s: Snapshot<K, D>, rec: Row<K, D>): Snapshot<K, D>
  {
    if rec.key in s.rows then Snapshot(s.rows[rec.key := OnConflictUpdate(s.rows[rec.key], rec)], s.nextId + 1)
    else Snapshot(s.rows[rec.key := rec.(id := s.nextId)], s.nextId + 1)
  }

  /** The statement as the transaction loop runs it: the database never refuses it by itself. */
  function OnConflictStatement<K(==), D>(): Statement<K, D>
  {
    (s: Snapshot<K, D>, rec: Row<K, D>) => Some(Upserted(s, rec))
  }

  /** The records upserted one after another, in order. */
  function UpsertedAll<K(==), D>(s: Snapshot<K, D>, recs: seq<Row<K, D>>): Snapshot<K, D>
    decreases |recs|
  {
    if recs == [] then s else Upserted(UpsertedAll(s, recs[..|recs| - 1]), recs[|recs| - 1])
  }

  /**
   * The statements draw one sequence value each, conflicting or not, and every row a
   * statement creates gets an id below the counter they leave.
   */
  lemma {:induction false} UpsertedAllDrawsIds<K, D>(s: Snapshot<K, D>, recs: seq<Row<K, D>>)
    ensures UpsertedAll(s, recs).nextId == s.nextId + |recs|
    ensures forall k :: k in UpsertedAll(s, recs).rows && k !in s.rows ==>
      s.nextId <= UpsertedAll(s, recs).rows[k].id < UpsertedAll(s, recs).nextId
    decreases |recs|
  {
    if recs != [] {
      UpsertedAllDrawsIds(s, recs[..|recs| - 1]);
    }
  }

  predicate HasKey<K(==), D>(recs: seq<Row<K, D>>, k: K)
  {
    exists i :: 0 <= i < |recs| && recs[i].key == k
  }

  /** The key set grows by exactly the batch's keys. */
  lemma {:induction false} UpsertedAllKeys<K, D>(s: Snapshot<K, D>, recs: seq<Row<K, D>>, k: K)
    ensures k in UpsertedAll(s, recs).rows <==> k in s.rows || HasKey(recs, k)
    decreases |recs|
  {
    if recs != [] {
      var init := recs[..|recs| - 1];
      UpsertedAllKeys(s, init, k);
      if HasKey(recs, k) && !HasKey(init, k) {
        assert recs[|recs| - 1].key == k;
      }
      if HasKey(init, k) {
        var i :| 0 <= i < |init| && init[i].key == k;
        assert recs[i].key == k;
      }
    }
  }

  /** A key the batch does not mention keeps its row exactly. */
  lemma {:induction false} UpsertedAllUntouched<K, D>(s: Snapshot<K, D>, recs: seq<Row<K, D>>, k: K)
    requires k in s.rows
    requires forall i :: 0 <= i < |recs| ==> recs[i].key != k
    ensures k in UpsertedAll(s, recs).rows && UpsertedAll(s, recs).rows[k] == s.rows[k]
    decreases |recs|
  {
    if recs != [] {
      UpsertedAllUntouched(s, recs[..|recs| - 1], k);
    }
  }

  /**
   * Last write wins: for the last record of the batch with a given key, the stored row
   * carries that record's payload, updated_at and deleted_at.
   */
  lemma {:induction false} UpsertedAllLastWins<K, D>(s: Snapshot<K, D>, recs: seq<Row<K, D>>, i: nat)
    requires i < |recs|
    requires forall j :: i < j < |recs| ==> recs[j].key != recs[i].key
    ensures var t := UpsertedAll(s, recs);
      recs[i].key in t.rows &&
      t.rows[recs[i].key].data == recs[i].data &&
      t.rows[recs[i].key].updatedAt == recs[i].updatedAt &&
      t.rows[recs[i].key].deletedAt == recs[i].deletedAt
    decreases |recs|
  {
    if i < |recs| - 1 {
      UpsertedAllLastWins(s, recs[..|recs| - 1], i);
    }
  }

  /** A row that existed before the batch keeps its id, key and created_at. */
  lemma {:induction false} UpsertedAllKeepsIdentity<K, D>(s: Snapshot<K, D>, recs: seq<Row<K, D>>, k: K)
    requires k in s.rows
    ensures var t := UpsertedAll(s, recs);
      k in t.rows && t.rows[k].id == s.rows[k].id && t.rows[k].key == s.rows[k].key &&
      t.rows[k].createdAt == s.rows[k].createdAt
    decreases |recs|
  {
    if recs != [] {
      UpsertedAllKeepsIdentity(s, recs[..|recs| - 1], k);
    }
  }

  /** A key new to the table gets created_at from the first record carrying it. */
  lemma {:induction false} UpsertedAllFirstCreates<K, D>(s: Snapshot<K, D>, recs: seq<Row<K, D>>, i: nat)
    requires i < |recs| && recs[i].key !in s.rows
    requires forall j :: 0 <= j < i ==> recs[j].key != recs[i].key
    ensures var t := UpsertedAll(s, recs);
      recs[i].key in t.rows && t.rows[recs[i].key].createdAt == recs[i].createdAt
    decreases |recs|
  {
    var k := recs[i].key;
    if i == |recs| - 1 {
      var init := recs[..i];
      forall j | 0 <= j < |init| ensures init[j].key != k { }
      UpsertedAllKeysAbsent(s, init, k);
    } else {
      UpsertedAllFirstCreates(s, recs[..|recs| - 1], i);
    }
  }

  /** A key neither stored nor in the batch stays absent. */
  lemma UpsertedAllKeysAbsent<K, D>(s: Snapshot<K, D>, recs: seq<Row<K, D>>, k: K)
    requires k !in s.rows
    requires forall j :: 0 <= j < |recs| ==> recs[j].key != k
    ensures k !in UpsertedAll(s, recs).rows
  {
    UpsertedAllKeys(s, recs, k);
  }

  // ---------------------------------------------------------------- transactions

  /**
   * Runs the statements in order. Some(i) when the i-th one is refused (by the database's
   * faults or by the statement itself); the snapshot is the state after the ones before it.
   */
  function Exec<K(==), D>(s: Snapshot<K, D>, recs: seq<Row<K, D>>, stmt: Statement<K, D>, rejected: set<nat>)
    : (r: (Option<nat>, Snapshot<K, D>))
    ensures r.0.Some? ==> r.0.value < |recs|
    ensures r.0.Some? ==> forall j :: 0 <= j < r.0.value ==> j !in rejected
    ensures r.0.None? ==> forall j :: 0 <= j < |recs| ==> j !in rejected
    decreases |recs|
  {
    if recs == [] then (None, s)
    else
      var prior := Exec(s, recs[..|recs| - 1], stmt, rejected);
      if prior.0.Some? then prior
      else if |recs| - 1 in rejected then (Some(|recs| - 1), prior.1)
      else
        match stmt(prior.1, recs[|recs| - 1])
        case None => (Some(|recs| - 1), prior.1)
        case Some(next) => (None, next)
  }

  /** Statements that file each row under its own key keep the table's keys in order. */
  lemma {:induction false} ExecKeepsKeys<K, D>(s: Snapshot<K, D>, recs: seq<Row<K, D>>, stmt: Statement<K, D>, rejected: set<nat>)
    requires KeysMatch(s.rows)
    requires forall t: Snapshot<K, D>, rec {:trigger stmt(t, rec)} ::
      KeysMatch(t.rows) && stmt(t, rec).Some? ==> KeysMatch(stmt(t, rec).value.rows)
    ensures KeysMatch(Exec(s, recs, stmt, rejected).1.rows)
    decreases |recs|
  {
    if recs != [] {
      var init := recs[..|recs| - 1];
      ExecKeepsKeys(s, init, stmt, rejected);
      var prior := Exec(s, init, stmt, rejected);
      if prior.0.None? && |recs| - 1 !in rejected {
        var next := stmt(prior.1, recs[|recs| - 1]);
        assert KeysMatch(prior.1.rows);
        assert next.Some? ==> KeysMatch(next.value.rows);
      }
    }
  }

  /** ON CONFLICT statements never refuse, so only the faults can stop them. */
  lemma {:induction false} ExecOnConflict<K, D>(s: Snapshot<K, D>, recs: seq<Row<K, D>>, rejected: set<nat>)
    ensures var r := Exec(s, recs, OnConflictStatement(), rejected);
      (r.0.None? <==> forall j :: 0 <= j < |recs| ==> j !in rejected) &&
      (r.0.Some? ==> r.0.value in rejected) &&
      (r.0.None? ==> r.1 == UpsertedAll(s, recs))
    decreases |recs|
  {
    if recs != [] {
      ExecOnConflict(s, recs[..|recs| - 1], rejected);
    }
  }

  /**
   * db.Transaction: all statements or none. On any failure the rows are those before
   * the transaction; the error names the refused record.
   */
  function RunTx<K(==), D>(s: Snapshot<K, D>, recs: seq<Row<K, D>>, stmt: Statement<K, D>, faults: DbFaults)
    : (r: (Option<TxError<K>>, Snapshot<K, D>))
    ensures r.0.Some? ==> r.1 == s
    ensures r.0.None? ==> !faults.txFails && Exec(s, recs, stmt, faults.rejected) == (None, r.1)
    ensures r.0.Some? && r.0.value.StatementFailed? ==>
      exists i :: 0 <= i < |recs| && recs[i].key == r.0.value.key && forall j :: 0 <= j < i ==> j !in faults.rejected
  {
    var (failed, t) := Exec(s, recs, stmt, faults.rejected);
    if failed.Some? then (Some(StatementFailed(recs[failed.value].key)), s)
    else if faults.txFails then (Some(TransactionFailed), s)
    else (None, t)
  }

  /**
   * The UpsertBatch of coins, categories, exchanges and market data: an empty batch, or
   * one without a valid record, succeeds without opening a transaction; otherwise the
   * valid records, in order, go through one ON CONFLICT statement each in a transaction.
   */
  function UpsertBatchResult<K(==), D>(s: Snapshot<K, D>, recs: seq<Row<K, D>>, valid: Row<K, D> -> bool, faults: DbFaults)
    : (Option<TxError<K>>, Snapshot<K, D>)
  {
    if |recs| == 0 then (None, s)
    else
      var kept := Seqs.Filter(recs, valid);
      if |kept| == 0 then (None, s)
      else RunTx(s, kept, OnConflictStatement(), faults)
  }

  /**
   * What an UpsertBatch promises: with no valid record nothing happens whatever the
   * database does; otherwise it succeeds exactly when no statement on a valid record is
   * refused and the transaction commits, and then the table is the valid records
   * upserted in order; on failure the rows are untouched and the error names a valid
   * record, the first one refused.
   */
  lemma UpsertBatchMeaning<K, D>(s: Snapshot<K, D>, recs: seq<Row<K, D>>, valid: Row<K, D> -> bool, faults: DbFaults)
    ensures var r := UpsertBatchResult(s, recs, valid, faults);
      var kept := Seqs.Filter(recs, valid);
      (|kept| == 0 ==> r == (None, s)) &&
      (|kept| > 0 ==>
        (r.0.None? <==> !faults.txFails && forall j :: 0 <= j < |kept| ==> j !in faults.rejected)) &&
      (r.0.None? ==> r.1 == UpsertedAll(s, kept)) &&
      (r.0.Some? ==> r.1 == s) &&
      (r.0.Some? && r.0.value.StatementFailed? ==>
         exists i :: 0 <= i < |kept| && kept[i].key == r.0.value.key && valid(kept[i]) &&
           i in faults.rejected && forall j :: 0 <= j < i ==> j !in faults.rejected)
  {
    var kept := Seqs.Filter(recs, valid);
    if |recs| == 0 {
      assert kept == [];
    }
    ExecOnConflict(s, kept, faults.rejected);
  }

  /** Every row the batch touched carries the payload and flags of one of its records. */
  lemma {:induction false} UpsertedAllRowSource<K, D>(s: Snapshot<K, D>, recs: seq<Row<K, D>>, k: K)
    requires k in UpsertedAll(s, recs).rows
    ensures var row := UpsertedAll(s, recs).rows[k];
      (k in s.rows && row == s.rows[k]) ||
      exists i :: 0 <= i < |recs| && recs[i].key == k && row.data == recs[i].data &&
        row.updatedAt == recs[i].updatedAt && row.deletedAt == recs[i].deletedAt
    decreases |recs|
  {
    if recs != [] {
      var init := recs[..|recs| - 1];
      var last := recs[|recs| - 1];
      if last.key != k {
        UpsertedAllRowSource(s, init, k);
        var row := UpsertedAll(s, recs).rows[k];
        if !(k in s.rows && row == s.rows[k]) {
          var i :| 0 <= i < |init| && init[i].key == k && row.data == init[i].data &&
            row.updatedAt == init[i].updatedAt && row.deletedAt == init[i].deletedAt;
          assert recs[i] == init[i];
        }
      }
    }
  }

  /** Upserting the valid records of A + [x] is upserting those of A, then x if it is valid. */
  lemma UpsertedFilteredStep<K, D>(s: Snapshot<K, D>, recs: seq<Row<K, D>>, valid: Row<K, D> -> bool)
    requires recs != []
    ensures var last := recs[|recs| - 1];
      var before := UpsertedAll(s, Seqs.Filter(recs[..|recs| - 1], valid));
      UpsertedAll(s, Seqs.Filter(recs, valid)) == if valid(last) then Upserted(before, last) else before
  {
    var f := Seqs.Filter(recs[..|recs| - 1], valid);
    if valid(recs[|recs| - 1]) {
      assert (f + [recs[|recs| - 1]])[..|f|] == f;
    } else {
      assert f + [] == f;
    }
  }

  /** Last write wins among the valid records of a batch. */
  lemma {:induction false} UpsertedFilteredLastWins<K, D>(s: Snapshot<K, D>, recs: seq<Row<K, D>>,
                                                          valid: Row<K, D> -> bool, i: nat)
    requires i < |recs| && valid(recs[i])
    requires forall j :: i < j < |recs| && valid(recs[j]) ==> recs[j].key != recs[i].key
    ensures var t := UpsertedAll(s, Seqs.Filter(recs, valid));
      recs[i].key in t.rows &&
      t.rows[recs[i].key].data == recs[i].data &&
      t.rows[recs[i].key].updatedAt == recs[i].updatedAt &&
      t.rows[recs[i].key].deletedAt == recs[i].deletedAt
    decreases |recs|
  {
    UpsertedFilteredStep(s, recs, valid);
    if i < |recs| - 1 {
      UpsertedFilteredLastWins(s, recs[..|recs| - 1], valid, i);
    }
  }

  /**
   * After a successful UpsertBatch, the row under the key of a valid record that no later
   * valid record repeats holds that record's payload, updated_at and deleted_at.
   */
  lemma UpsertBatchLastWins<K, D>(s: Snapshot<K, D>, recs: seq<Row<K, D>>, valid: Row<K, D> -> bool,
                                  faults: DbFaults, i: nat)
    requires UpsertBatchResult(s, recs, valid, faults).0.None?
    requires i < |recs| && valid(recs[i])
    requires forall j :: i < j < |recs| && valid(recs[j]) ==> recs[j].key != recs[i].key
    ensures var t := UpsertBatchResult(s, recs, valid, faults).1;
      recs[i].key in t.rows &&
      t.rows[recs[i].key].data == recs[i].data &&
      t.rows[recs[i].key].updatedAt == recs[i].updatedAt &&
      t.rows[recs[i].key].deletedAt == recs[i].deletedAt
  {
    UpsertBatchMeaning(s, recs, valid, faults);
    assert recs[i] in Seqs.Filter(recs, valid);
    UpsertedFilteredLastWins(s, recs, valid, i);
  }

  /**
   * Whatever the outcome, a stored row keeps its id, key and created_at, and a key that no
   * valid record carries keeps its row (or stays absent).
   */
  lemma UpsertBatchKeepsOthers<K, D>(s: Snapshot<K, D>, recs: seq<Row<K, D>>, valid: Row<K, D> -> bool,
                                     faults: DbFaults, k: K)
    ensures var t := UpsertBatchResult(s, recs, valid, faults).1;
      (k in s.rows ==> k in t.rows && t.rows[k].id == s.rows[k].id && t.rows[k].key == s.rows[k].key &&
                       t.rows[k].createdAt == s.rows[k].createdAt) &&
      ((forall i :: 0 <= i < |recs| && valid(recs[i]) ==> recs[i].key != k) ==>
         (k in t.rows <==> k in s.rows) && (k in s.rows ==> t.rows[k] == s.rows[k]))
  {
    UpsertBatchMeaning(s, recs, valid, faults);
    var kept := Seqs.Filter(recs, valid);
    if k in s.rows {
      UpsertedAllKeepsIdentity(s, kept, k);
    }
    if forall i :: 0 <= i < |recs| && valid(recs[i]) ==> recs[i].key != k {
      forall j | 0 <= j < |kept| ensures kept[j].key != k {
        var i :| 0 <= i < |recs| && recs[i] == kept[j];
      }
      if k in s.rows {
        UpsertedAllUntouched(s, kept, k);
      } else {
        UpsertedAllKeysAbsent(s, kept, k);
      }
    }
  }

  /**
   * After an UpsertBatch every row is either as it was or carries the payload and flags
   * of a valid record of the batch with its key.
   */
  lemma UpsertBatchRowSource<K, D>(s: Snapshot<K, D>, recs: seq<Row<K, D>>, valid: Row<K, D> -> bool,
                                   faults: DbFaults, k: K)
    requires k in UpsertBatchResult(s, recs, valid, faults).1.rows
    ensures var row := UpsertBatchResult(s, recs, valid, faults).1.rows[k];
      (k in s.rows && row == s.rows[k]) ||
      exists i :: 0 <= i < |recs| && valid(recs[i]) && recs[i].key == k && row.data == recs[i].data &&
        row.updatedAt == recs[i].updatedAt && row.deletedAt == recs[i].deletedAt
  {
    UpsertBatchMeaning(s, recs, valid, faults);
    var r := UpsertBatchResult(s, recs, valid, faults);
    var kept := Seqs.Filter(recs, valid);
    if r.0.None? && |kept| > 0 {
      UpsertedAllRowSource(s, kept, k);
      var row := r.1.rows[k];
      if !(k in s.rows && row == s.rows[k]) {
        var j :| 0 <= j < |kept| && kept[j].key == k && row.data == kept[j].data &&
          row.updatedAt == kept[j].updatedAt && row.deletedAt == kept[j].deletedAt;
        var i :| 0 <= i < |recs| && recs[i] == kept[j];
      }
    }
  }

  // ---------------------------------------------------------------- gorm writes

  /** gorm's autoCreateTime/autoUpdateTime on insert: a zero timestamp becomes `now`. */
  function CreateStamped<K(==), D>(rec: Row<K, D>, now: Time): (r: Row<K, D>)
    ensures r.createdAt == (if rec.createdAt == ZeroTime then now else rec.createdAt)
    ensures r.updatedAt == (if rec.updatedAt == ZeroTime then now else rec.updatedAt)
    ensures r.(createdAt := rec.createdAt, updatedAt := rec.updatedAt) == rec
  {
    rec.(createdAt := if rec.createdAt == ZeroTime then now else rec.createdAt,
         updatedAt := if rec.updatedAt == ZeroTime then now else rec.updatedAt)
  }

  /** What the single-record Upserts do before querying: default created_at, refresh updated_at. */
  function RepoStamped<K(==), D>(rec: Row<K, D>, now: Time): (r: Row<K, D>)
    ensures r.createdAt == (if rec.createdAt == ZeroTime then now else rec.createdAt)
    ensures r.updatedAt == now
    ensures r.(createdAt := rec.createdAt, updatedAt := rec.updatedAt) == rec
  {
    rec.(createdAt := if rec.createdAt == ZeroTime then now else rec.createdAt, updatedAt := now)
  }

  /** A row inserted by gorm: the record's own id when it has one, else the next serial id. */
  function Inserted<K(==), D>(s: Snapshot<K, D>, rec: Row<K, D>): Snapshot<K, D>
  {
    if rec.id != 0 then Snapshot(s.rows[rec.key := rec], s.nextId)
    else Snapshot(s.rows[rec.key := rec.(id := s.nextId)], s.nextId + 1)
  }

  /**
   * Assign(record) on a found row: gorm updates the columns whose value in the record is
   * not the zero value; `overlay` does the same for the payload columns.
   */
  function Assigned<K(==), D>(existing: Row<K, D>, incoming: Row<K, D>, overlay: (D, D) -> D): Row<K, D>
  {
    Row(if incoming.id != 0 then incoming.id else existing.id,
        existing.key,
        overlay(existing.data, incoming.data),
        if incoming.createdAt != ZeroTime then incoming.createdAt else existing.createdAt,
        if incoming.updatedAt != ZeroTime then incoming.updatedAt else existing.updatedAt,
        if incoming.deletedAt.Some? then incoming.deletedAt else existing.deletedAt)
  }

  /**
   * The primary-key condition FirstOrCreate adds to its lookup: a record with a non-zero
   * id matches only the row with that id; a record without one matches any row.
   */
  predicate MatchesId<K, D>(row: Row<K, D>, id: nat)
  {
    id == 0 || row.id == id
  }

  /**
   * The row FirstOrCreate's lookup returns: a live row that satisfies the condition and
   * the record's primary key (MatchesId). With `anyRow` the condition imposes nothing
   * (gorm drops a zero-valued field from a struct condition, so an empty key matches
   * every row) and First returns the qualifying live row with the smallest id; otherwise
   * it is the live row with the record's key, if that row qualifies.
   */
  ghost predicate LookupFinds<K, D>(rows: map<K, Row<K, D>>, rec: Row<K, D>, anyRow: bool, found: Option<K>)
  {
    if anyRow then
      match found
      case None => forall k :: k in rows ==> !(rows[k].Live() && MatchesId(rows[k], rec.id))
      case Some(k) =>
        k in rows && rows[k].Live() && MatchesId(rows[k], rec.id) &&
        forall j :: j in rows && rows[j].Live() && MatchesId(rows[j], rec.id) ==> rows[k].id <= rows[j].id
    else found == (if rec.key in rows && rows[rec.key].Live() && MatchesId(rows[rec.key], rec.id) then Some(rec.key) else None)
  }

  /**
   * The single-record Upsert: stamp the record, then Where(key).Assign(record).FirstOrCreate.
   * The row the lookup found (`found`) takes the record's non-zero columns; with no row
   * found the stamped record is inserted. A soft-deleted row, or a live one whose id is
   * not the record's non-zero id, is invisible to the lookup, so with a unique index on
   * the key the insert then fails; without one the new row takes its key. A non-zero id
   * that another row holds breaks the primary key.
   */
  function AssignUpsertResult<K(==), D>(s: Snapshot<K, D>, rec: Row<K, D>, now: Time, overlay: (D, D) -> D,
                                        uniqueKey: bool, fails: bool, found: Option<K>): (r: Result<Snapshot<K, D>, DbError>)
    requires found.Some? ==> found.value in s.rows
    ensures r.Ok? ==> r.value.nextId >= s.nextId
  {
    var stamped := RepoStamped(rec, now);
    if fails then Err(QueryFailed)
    else if IdTaken(s.rows, rec.id, found) then Err(DuplicateKey)
    else match found
      case Some(k) => Ok(Snapshot(s.rows[k := Assigned(s.rows[k], stamped, overlay)], s.nextId))
      case None => if rec.key in s.rows && uniqueKey then Err(DuplicateKey) else Ok(Inserted(s, stamped))
  }

  /**
   * Keyed by its key (the usual case), a single Upsert leaves exactly one row under the
   * key, live unless the record itself carries a deletion time, with created_at set from
   * the record when it has one and to `now` otherwise, and updated_at refreshed to `now`;
   * no other row changes, and a record with an id keeps it. It fails only when the query
   * does, when the record's own id is another row's, or when a uniquely indexed key is
   * held by a row the lookup skips: a soft-deleted one or one with another id.
   */
  lemma AssignUpsertMeaning<K, D>(s: Snapshot<K, D>, rec: Row<K, D>, now: Time, overlay: (D, D) -> D,
                                  uniqueKey: bool, fails: bool, found: Option<K>)
    requires now != ZeroTime && KeysMatch(s.rows)
    requires LookupFinds(s.rows, rec, false, found)
    ensures var r := AssignUpsertResult(s, rec, now, overlay, uniqueKey, fails, found);
      (r.Err? <==> fails || IdTaken(s.rows, rec.id, found) ||
                   (rec.key in s.rows && !(s.rows[rec.key].Live() && MatchesId(s.rows[rec.key], rec.id)) && uniqueKey)) &&
      (r.Ok? ==>
        r.value.rows.Keys == s.rows.Keys + {rec.key} &&
        r.value.rows[rec.key].key == rec.key &&
        (rec.id != 0 ==> r.value.rows[rec.key].id == rec.id) &&
        r.value.rows[rec.key].updatedAt == now &&
        r.value.rows[rec.key].createdAt == (if rec.createdAt == ZeroTime then now else rec.createdAt) &&
        (rec.deletedAt.None? ==> r.value.rows[rec.key].Live()) &&
        forall k :: k in s.rows && k != rec.key ==> r.value.rows[k] == s.rows[k])
  {
  }

  /**
   * A record whose non-zero id is not the id of the live row holding its key is not
   * matched by the lookup, so on a uniquely indexed key the insert that follows is refused.
   */
  lemma ForeignIdRefused<K, D>(s: Snapshot<K, D>, rec: Row<K, D>, now: Time, overlay: (D, D) -> D, found: Option<K>)
    requires LookupFinds(s.rows, rec, false, found)
    requires rec.key in s.rows && s.rows[rec.key].Live() && rec.id != 0 && s.rows[rec.key].id != rec.id
    ensures found.None?
    ensures AssignUpsertResult(s, rec, now, overlay, true, false, found) == Err(DuplicateKey)
  {
  }

  /**
   * Re-upserting a live record under the same key succeeds and replaces rather than
   * duplicates: the second call adds no row and draws no id.
   */
  lemma AssignUpsertTwiceSameKeys<K, D>(s: Snapshot<K, D>, rec: Row<K, D>, now: Time, overlay: (D, D) -> D,
                                        uniqueKey: bool, found1: Option<K>, found2: Option<K>)
    requires now != ZeroTime && KeysMatch(s.rows) && rec.deletedAt.None?
    requires LookupFinds(s.rows, rec, false, found1)
    requires AssignUpsertResult(s, rec, now, overlay, uniqueKey, false, found1).Ok?
    requires LookupFinds(AssignUpsertResult(s, rec, now, overlay, uniqueKey, false, found1).value.rows, rec, false, found2)
    ensures var once := AssignUpsertResult(s, rec, now, overlay, uniqueKey, false, found1).value;
      var twice := AssignUpsertResult(once, rec, now, overlay, uniqueKey, false, found2);
      twice.Ok? && twice.value.rows.Keys == once.rows.Keys && twice.value.nextId == once.nextId
  {
    AssignUpsertMeaning(s, rec, now, overlay, uniqueKey, false, found1);
  }

  /**
   * With an empty key the lookup matches any row that has the record's id, if it carries
   * one (WHERE id = ...). So when the table holds such a live row, the record's columns
   * land on the one with the smallest id (the row with its id, for a record with one) and
   * no row is created, unless the record's id is another row's as well.
   */
  lemma EmptyKeyUpdatesFirstRow<K, D>(s: Snapshot<K, D>, rec: Row<K, D>, now: Time, overlay: (D, D) -> D,
                                      uniqueKey: bool, found: Option<K>)
    requires LookupFinds(s.rows, rec, true, found)
    ensures found.Some? <==> exists k :: k in s.rows && s.rows[k].Live() && MatchesId(s.rows[k], rec.id)
    ensures found.Some? && rec.id != 0 ==> s.rows[found.value].id == rec.id
    ensures found.Some? ==> var r := AssignUpsertResult(s, rec, now, overlay, uniqueKey, false, found);
      (r.Err? <==> IdTaken(s.rows, rec.id, found)) &&
      (r.Ok? ==>
      r.value.rows.Keys == s.rows.Keys && r.value.nextId == s.nextId &&
      r.value.rows[found.value].key == s.rows[found.value].key &&
      r.value.rows[found.value].data == overlay(s.rows[found.value].data, RepoStamped(rec, now).data))
  {
  }

  /** Records inserted one after another (CreateInBatches), each stamped by gorm. */
  function CreatedAll<K(==), D>(s: Snapshot<K, D>, recs: seq<Row<K, D>>, now: Time): Snapshot<K, D>
    decreases |recs|
  {
    if recs == [] then s else Inserted(CreatedAll(s, recs[..|recs| - 1], now), CreateStamped(recs[|recs| - 1], now))
  }

  /**
   * No record collides with a stored row or with an earlier record of the batch, on the
   * unique key or on an explicit primary key.
   */
  predicate Insertable<K(==), D>(s: Snapshot<K, D>, recs: seq<Row<K, D>>, now: Time)
    decreases |recs|
  {
    recs == [] ||
    var before := CreatedAll(s, recs[..|recs| - 1], now);
    var last := recs[|recs| - 1];
    Insertable(s, recs[..|recs| - 1], now) && last.key !in before.rows && !IdTaken(before.rows, last.id, None)
  }

  lemma {:induction false} CreatedAllKeys<K, D>(s: Snapshot<K, D>, recs: seq<Row<K, D>>, now: Time, k: K)
    ensures k in CreatedAll(s, recs, now).rows <==> k in s.rows || HasKey(recs, k)
    decreases |recs|
  {
    if recs != [] {
      var init := recs[..|recs| - 1];
      CreatedAllKeys(s, init, now, k);
      if HasKey(init, k) {
        var i :| 0 <= i < |init| && init[i].key == k;
        assert recs[i].key == k;
      }
      if HasKey(recs, k) && !HasKey(init, k) {
        assert recs[|recs| - 1].key == k;
      }
    }
  }

  /** Each record's explicit id, if any, is free in the table its predecessors leave. */
  ghost predicate IdsFree<K, D>(s: Snapshot<K, D>, recs: seq<Row<K, D>>, now: Time)
  {
    forall i :: 0 <= i < |recs| ==> !IdTaken(CreatedAll(s, recs[..i], now).rows, recs[i].id, None)
  }

  /** The keys of a batch are new and pairwise distinct. */
  ghost predicate KeysFresh<K, D>(s: Snapshot<K, D>, recs: seq<Row<K, D>>)
  {
    (forall i :: 0 <= i < |recs| ==> recs[i].key !in s.rows) &&
    (forall i, j :: 0 <= i < j < |recs| ==> recs[i].key != recs[j].key)
  }

  lemma IdsFreeStep<K, D>(s: Snapshot<K, D>, recs: seq<Row<K, D>>, now: Time)
    requires recs != []
    ensures IdsFree(s, recs, now) <==>
      IdsFree(s, recs[..|recs| - 1], now) && !IdTaken(CreatedAll(s, recs[..|recs| - 1], now).rows, recs[|recs| - 1].id, None)
  {
    var init := recs[..|recs| - 1];
    forall i | 0 <= i < |init|
      ensures recs[i] == init[i] && recs[..i] == init[..i]
    {
    }
  }

  lemma KeysFreshStep<K, D>(s: Snapshot<K, D>, recs: seq<Row<K, D>>, now: Time)
    requires recs != []
    ensures KeysFresh(s, recs) <==>
      KeysFresh(s, recs[..|recs| - 1]) && recs[|recs| - 1].key !in CreatedAll(s, recs[..|recs| - 1], now).rows
  {
    var init := recs[..|recs| - 1];
    var last := recs[|recs| - 1];
    CreatedAllKeys(s, init, now, last.key);
    if last.key in CreatedAll(s, init, now).rows && !(last.key in s.rows) {
      var i :| 0 <= i < |init| && init[i].key == last.key;
      assert recs[i].key == recs[|recs| - 1].key;
    }
  }

  /**
   * A batch inserts cleanly exactly when its keys are new and pairwise distinct and each
   * explicit id is free when its record comes.
   */
  lemma {:induction false} InsertableMeaning<K, D>(s: Snapshot<K, D>, recs: seq<Row<K, D>>, now: Time)
    ensures Insertable(s, recs, now) <==>
      (forall i :: 0 <= i < |recs| ==> recs[i].key !in s.rows) &&
      (forall i, j :: 0 <= i < j < |recs| ==> recs[i].key != recs[j].key) &&
      (forall i :: 0 <= i < |recs| ==> !IdTaken(CreatedAll(s, recs[..i], now).rows, recs[i].id, None))
    decreases |recs|
  {
    if recs != [] {
      InsertableMeaning(s, recs[..|recs| - 1], now);
      IdsFreeStep(s, recs, now);
      KeysFreshStep(s, recs, now);
      assert Insertable(s, recs, now) <==> KeysFresh(s, recs) && IdsFree(s, recs, now);
    }
  }

  /** CreateBatch: nothing for an empty batch; otherwise all records in one transaction or none. */
  function CreateBatchResult<K(==), D>(s: Snapshot<K, D>, recs: seq<Row<K, D>>, now: Time, fails: bool)
    : (r: (Option<DbError>, Snapshot<K, D>))
    ensures r.0.Some? ==> r.1 == s
    ensures |recs| == 0 ==> r == (None, s)
    ensures |recs| > 0 ==> (r.0.None? <==> !fails && Insertable(s, recs, now))
  {
    if |recs| == 0 then (None, s)
    else if fails then (Some(QueryFailed), s)
    else if !Insertable(s, recs, now) then (Some(DuplicateKey), s)
    else (None, CreatedAll(s, recs, now))
  }

  /**
   * gorm's Save on a table whose primary key is the key column (asset platforms). An
   * empty key is a zero primary key, so Save is a plain Create, refused when that key is
   * taken. Otherwise it is an UPDATE of every column of the live row with updated_at =
   * now; when no live row matched, an INSERT ... ON CONFLICT (key) DO UPDATE of every
   * column except the key and created_at, which revives a soft-deleted row.
   */
  function SavedByKey<D>(s: Snapshot<string, D>, rec: Row<string, D>, now: Time): (r: Option<Snapshot<string, D>>)
    ensures r.None? <==> rec.key == "" && "" in s.rows
    ensures r.Some? ==> r.value.rows.Keys == s.rows.Keys + {rec.key} && r.value.nextId == s.nextId
    ensures r.Some? ==> r.value.rows[rec.key].data == rec.data && r.value.rows[rec.key].deletedAt == rec.deletedAt
    ensures r.Some? ==> forall k :: k in s.rows && k != rec.key ==> r.value.rows[k] == s.rows[k]
  {
    if rec.key == "" then
      if "" in s.rows then None else Some(Snapshot(s.rows["" := CreateStamped(rec, now)], s.nextId))
    else if rec.key in s.rows && s.rows[rec.key].Live() then
      Some(Snapshot(s.rows[rec.key := rec.(updatedAt := now)], s.nextId))
    else if rec.key in s.rows then
      Some(Snapshot(s.rows[rec.key := rec.(createdAt := s.rows[rec.key].createdAt, updatedAt := now)], s.nextId))
    else
      Some(Snapshot(s.rows[rec.key := CreateStamped(rec.(updatedAt := now), now)], s.nextId))
  }

  function SaveStatement<D>(now: Time): Statement<string, D>
  {
    (s: Snapshot<string, D>, rec: Row<string, D>) => SavedByKey(s, rec, now)
  }

  /**
   * Save on a non-empty key refreshes updated_at to `now` and writes created_at from the
   * record, except that reviving a soft-deleted row keeps the stored created_at and a
   * fresh row gets `now` when the record has none.
   */
  lemma SavedByKeyTimestamps<D>(s: Snapshot<string, D>, rec: Row<string, D>, now: Time)
    requires rec.key != "" && now != ZeroTime
    ensures var r := SavedByKey(s, rec, now);
      r.Some? && r.value.rows[rec.key].updatedAt == now &&
      r.value.rows[rec.key].createdAt ==
        if rec.key in s.rows && !s.rows[rec.key].Live() then s.rows[rec.key].createdAt
        else if rec.key !in s.rows && rec.createdAt == ZeroTime then now
        else rec.createdAt
  {
  }

  /**
   * A committed Save loop stores every record's key, and the row under a key carries the
   * payload and deleted_at of the last record with that key: there is no key filter.
   */
  lemma {:induction false} ExecSaveLastWins<D>(s: Snapshot<string, D>, recs: seq<Row<string, D>>, now: Time,
                                               rejected: set<nat>, i: nat)
    requires Exec(s, recs, SaveStatement(now), rejected).0.None?
    requires i < |recs|
    requires forall j :: i < j < |recs| ==> recs[j].key != recs[i].key
    ensures var t := Exec(s, recs, SaveStatement(now), rejected).1;
      recs[i].key in t.rows && t.rows[recs[i].key].data == recs[i].data &&
      t.rows[recs[i].key].deletedAt == recs[i].deletedAt
    decreases |recs|
  {
    if i < |recs| - 1 {
      ExecSaveLastWins(s, recs[..|recs| - 1], now, rejected, i);
    }
  }

  /** A Save loop refuses only a second record with the empty key, or one when "" is stored. */
  lemma {:induction false} ExecSaveRefusal<D>(s: Snapshot<string, D>, recs: seq<Row<string, D>>, now: Time,
                                              rejected: set<nat>)
    requires Exec(s, recs, SaveStatement(now), rejected).0.Some?
    ensures var i := Exec(s, recs, SaveStatement(now), rejected).0.value;
      i in rejected ||
      (recs[i].key == "" && ("" in s.rows || exists j :: 0 <= j < i && recs[j].key == ""))
    decreases |recs|
  {
    var init := recs[..|recs| - 1];
    var prior := Exec(s, init, SaveStatement(now), rejected);
    if prior.0.Some? {
      ExecSaveRefusal(s, init, now, rejected);
      var i := prior.0.value;
      if !(i in rejected) && !("" in s.rows) {
        var j :| 0 <= j < i && init[j].key == "";
        assert recs[j].key == "";
      }
    } else if |recs| - 1 !in rejected {
      ExecSaveKeys(s, init, now, rejected, "");
      if "" in prior.1.rows && "" !in s.rows {
        var j :| 0 <= j < |init| && init[j].key == "";
        assert recs[j].key == "";
      }
    }
  }

  /** The keys after a committed prefix of Saves: the stored ones plus the records' keys. */
  lemma {:induction false} ExecSaveKeys<D>(s: Snapshot<string, D>, recs: seq<Row<string, D>>, now: Time,
                                           rejected: set<nat>, k: string)
    requires Exec(s, recs, SaveStatement(now), rejected).0.None?
    ensures k in Exec(s, recs, SaveStatement(now), rejected).1.rows <==> k in s.rows || HasKey(recs, k)
    decreases |recs|
  {
    if recs != [] {
      var init := recs[..|recs| - 1];
      var last := recs[|recs| - 1];
      ExecSaveStep(s, recs, now, rejected);
      var prior := Exec(s, init, SaveStatement(now), rejected);
      SavedByKeyKeys(prior.1, last, now, k);
      ExecSaveKeys(s, init, now, rejected, k);
      HasKeyLast(recs, k);
    }
  }

  /** A committed Save loop is its committed prefix followed by one more Save. */
  lemma ExecSaveStep<D>(s: Snapshot<string, D>, recs: seq<Row<string, D>>, now: Time, rejected: set<nat>)
    requires recs != [] && Exec(s, recs, SaveStatement(now), rejected).0.None?
    ensures var prior := Exec(s, recs[..|recs| - 1], SaveStatement(now), rejected);
      prior.0.None? && SavedByKey(prior.1, recs[|recs| - 1], now).Some? &&
      Exec(s, recs, SaveStatement(now), rejected).1 == SavedByKey(prior.1, recs[|recs| - 1], now).value
  {
  }

  /** A key occurs in a batch iff it occurs before the last record or is the last record's. */
  lemma HasKeyLast<K, D>(recs: seq<Row<K, D>>, k: K)
    requires recs != []
    ensures HasKey(recs, k) <==> HasKey(recs[..|recs| - 1], k) || recs[|recs| - 1].key == k
  {
    var init := recs[..|recs| - 1];
    if HasKey(init, k) {
      var i :| 0 <= i < |init| && init[i].key == k;
      assert recs[i].key == k;
    }
    if HasKey(recs, k) && recs[|recs| - 1].key != k {
      var i :| 0 <= i < |recs| && recs[i].key == k;
      assert init[i].key == k;
    }
  }

  /** A Save that succeeds adds the record's key and no other. */
  lemma SavedByKeyKeys<D>(s: Snapshot<string, D>, rec: Row<string, D>, now: Time, k: string)
    requires SavedByKey(s, rec, now).Some?
    ensures k in SavedByKey(s, rec, now).value.rows <==> k in s.rows || k == rec.key
  {
  }

  /** gorm's Updates with a struct skips a nil pointer ... */
  function Pick<T>(stored: Option<T>, incoming: Option<T>): Option<T>
  {
    if incoming.Some? then incoming else stored
  }

  /** ... and an empty string. */
  function PickText(stored: string, incoming: string): string
  {
    if incoming != "" then incoming else stored
  }

  /** gorm's soft delete: live rows matching the condition get deleted_at = now. */
  function SoftDeleted<K(==), D>(rows: map<K, Row<K, D>>, matches: Row<K, D> -> bool, now: Time): map<K, Row<K, D>>
  {
    map k | k in rows :: if rows[k].Live() && matches(rows[k]) then rows[k].(deletedAt := Some(now)) else rows[k]
  }

  /**
   * A soft delete hides exactly the matching rows from every later read and leaves the
   * other live rows as they were.
   */
  lemma SoftDeleteHidesExactly<K, D>(rows: map<K, Row<K, D>>, matches: Row<K, D> -> bool, now: Time)
    ensures SoftDeleted(rows, matches, now).Keys == rows.Keys
    ensures forall k :: k in rows ==>
      (SoftDeleted(rows, matches, now)[k].Live() <==> rows[k].Live() && !matches(rows[k]))
    ensures forall k :: k in rows && !matches(rows[k]) ==> SoftDeleted(rows, matches, now)[k] == rows[k]
  {
  }

  /** The rows every gorm read sees. */
  ghost function LiveRows<K, D>(rows: map<K, Row<K, D>>): set<Row<K, D>>
  {
    set k | k in rows && rows[k].Live() :: rows[k]
  }

  // ---------------------------------------------------------------- the table itself

  /** The filtering loops: `valid = append(valid, x)` for every x that passes the check. */
  method SelectValid<T>(recs: seq<T>, valid: T -> bool) returns (kept: seq<T>)
    ensures kept == Seqs.Filter(recs, valid)
  {
    kept := [];
    for i := 0 to |recs|
      invariant kept == Seqs.Filter(recs[..i], valid)
    {
      Seqs.FilterStep(recs, i, valid);
      if valid(recs[i]) {
        kept := kept + [recs[i]];
      }
    }
    assert recs[..|recs|] == recs;
  }

  class KeyedTable<K(==), D> {
    var rows: map<K, Row<K, D>>
    var nextId: nat

    function Snap(): Snapshot<K, D>
      reads this
    {
      Snapshot(rows, nextId)
    }

    /** Every row is filed under its own unique key. */
    ghost predicate Valid()
      reads this
    {
      KeysMatch(rows)
    }

    constructor ()
      ensures Valid()
      ensures rows == map[] && nextId == 1
    {
      rows := map[];
      nextId := 1;
    }

    /** The transaction loop; a refusal rolls back to the rows seen at BEGIN. */
    method RunTransaction(recs: seq<Row<K, D>>, stmt: Statement<K, D>, faults: DbFaults) returns (err: Option<TxError<K>>)
      requires forall t: Snapshot<K, D>, rec {:trigger stmt(t, rec)} ::
        KeysMatch(t.rows) && stmt(t, rec).Some? ==> KeysMatch(stmt(t, rec).value.rows)
      modifies this
      ensures (err, Snap()) == RunTx(old(Snap()), recs, stmt, faults)
      ensures old(Valid()) ==> Valid()
    {
      var before := Snap();
      if KeysMatch(before.rows) {
        ExecKeepsKeys(before, recs, stmt, faults.rejected);
      }
      var i := 0;
      while i < |recs|
        invariant 0 <= i <= |recs|
        invariant Exec(before, recs[..i], stmt, faults.rejected) == (None, Snap())
      {
        assert recs[..i + 1][..i] == recs[..i];
        var outcome := stmt(Snap(), recs[i]);
        if i in faults.rejected || outcome.None? {
          assert Exec(before, recs[..i + 1], stmt, faults.rejected).0 == Some(i);
          ExecStopsAtFailure(before, recs, stmt, faults.rejected, i + 1);
          rows, nextId := before.rows, before.nextId;
          return Some(StatementFailed(recs[i].key));
        }
        rows, nextId := outcome.value.rows, outcome.value.nextId;
        i := i + 1;
      }
      assert recs[..i] == recs;
      if faults.txFails {
        rows, nextId := before.rows, before.nextId;
        return Some(TransactionFailed);
      }
      err := None;
    }

    /** Filter, then one ON CONFLICT statement per valid record, in one transaction. */
    method UpsertBatch(recs: seq<Row<K, D>>, valid: Row<K, D> -> bool, faults: DbFaults) returns (err: Option<TxError<K>>)
      modifies this
      ensures (err, Snap()) == UpsertBatchResult(old(Snap()), recs, valid, faults)
      ensures old(Valid()) ==> Valid()
    {
      if |recs| == 0 {
        return None;
      }
      var kept := SelectValid(recs, valid);
      if |kept| == 0 {
        return None;
      }
      var stmt := OnConflictStatement();
      forall t: Snapshot<K, D>, rec | KeysMatch(t.rows)
        ensures KeysMatch(stmt(t, rec).value.rows)
      {
      }
      err := RunTransaction(kept, stmt, faults);
    }

    /**
     * Stamp the record, then find-or-create and assign the record's non-zero columns.
     * `anyRow` says the lookup condition is empty (a struct condition on a zero key).
     */
    method AssignUpsert(rec: Row<K, D>, now: Time, overlay: (D, D) -> D, uniqueKey: bool, anyRow: bool, fails: bool)
      returns (err: Option<DbError>)
      modifies this
      ensures exists found: Option<K> ::
        && (found.Some? ==> found.value in old(rows))
        && LookupFinds(old(rows), rec, anyRow, found)
        && var r := AssignUpsertResult(old(Snap()), rec, now, overlay, uniqueKey, fails, found);
           (r.Ok? ==> err.None? && Snap() == r.value) && (r.Err? ==> err == Some(r.error) && Snap() == old(Snap()))
      ensures old(Valid()) ==> Valid()
    {
      var stamped := rec;
      if stamped.createdAt == ZeroTime {
        stamped := stamped.(createdAt := now);
      }
      stamped := stamped.(updatedAt := now);
      var found := Lookup(rec, anyRow);
      if fails {
        return Some(QueryFailed);
      }
      var clash := IdClash(stamped.id, found);
      if clash {
        return Some(DuplicateKey);
      }
      if found.Some? {
        rows := rows[found.value := Assigned(rows[found.value], stamped, overlay)];
      } else if stamped.key in rows && uniqueKey {
        return Some(DuplicateKey);
      } else if stamped.id != 0 {
        rows := rows[stamped.key := stamped];
      } else {
        rows := rows[stamped.key := stamped.(id := nextId)];
        nextId := nextId + 1;
      }
      err := None;
    }

    /** FirstOrCreate's lookup: the condition, or no condition at all, and the record's id. */
    method Lookup(rec: Row<K, D>, anyRow: bool) returns (found: Option<K>)
      ensures found.Some? ==> found.value in rows
      ensures LookupFinds(rows, rec, anyRow, found)
    {
      if anyRow {
        found := FirstLiveKey(row => MatchesId(row, rec.id));
      } else {
        found := if rec.key in rows && rows[rec.key].Live() && MatchesId(rows[rec.key], rec.id)
          then Some(rec.key) else None;
      }
    }

    /** CreateInBatches inside a transaction: the first colliding key rolls everything back. */
    method CreateBatch(recs: seq<Row<K, D>>, now: Time, fails: bool) returns (err: Option<DbError>)
      modifies this
      ensures (err, Snap()) == CreateBatchResult(old(Snap()), recs, now, fails)
      ensures old(Valid()) ==> Valid()
    {
      if |recs| == 0 {
        return None;
      }
      if fails {
        return Some(QueryFailed);
      }
      var before := Snap();
      var i := 0;
      while i < |recs|
        invariant 0 <= i <= |recs|
        invariant Insertable(before, recs[..i], now)
        invariant Snap() == CreatedAll(before, recs[..i], now)
        invariant old(Valid()) ==> Valid()
      {
        assert recs[..i + 1][..i] == recs[..i];
        var rec := CreateStamped(recs[i], now);
        var clash := IdClash(rec.id, None);
        if rec.key in rows || clash {
          assert !Insertable(before, recs[..i + 1], now);
          NotInsertableExtends(before, recs, i + 1, now);
          rows, nextId := before.rows, before.nextId;
          return Some(DuplicateKey);
        }
        if rec.id != 0 {
          rows := rows[rec.key := rec];
        } else {
          rows := rows[rec.key := rec.(id := nextId)];
          nextId := nextId + 1;
        }
        i := i + 1;
      }
      assert recs[..i] == recs;
      err := None;
    }

    /** Find(&rows): every live row once, in no particular order. */
    method All(fails: bool) returns (r: Result<seq<Row<K, D>>, DbError>)
      requires Valid()
      ensures fails <==> r.Err?
      ensures r.Err? ==> r.error == QueryFailed
      ensures r.Ok? ==> forall i :: 0 <= i < |r.value| ==> r.value[i] in LiveRows(rows)
      ensures r.Ok? ==> forall k :: k in rows && rows[k].Live() ==> rows[k] in r.value
      ensures r.Ok? ==> forall i, j :: 0 <= i < j < |r.value| ==> r.value[i].key != r.value[j].key
    {
      if fails {
        return Err(QueryFailed);
      }
      var found := LiveWhere(_ => true);
      r := Ok(found);
    }

    /** Where(condition).Find(&rows): the live rows satisfying the condition. */
    method LiveWhere(matches: Row<K, D> -> bool) returns (found: seq<Row<K, D>>)
      requires Valid()
      ensures forall i :: 0 <= i < |found| ==> found[i] in LiveRows(rows) && matches(found[i])
      ensures forall k :: k in rows && rows[k].Live() && matches(rows[k]) ==> rows[k] in found
      ensures forall i, j :: 0 <= i < j < |found| ==> found[i].key != found[j].key
    {
      found := [];
      var todo := rows.Keys;
      while todo != {}
        invariant todo <= rows.Keys
        invariant forall i :: 0 <= i < |found| ==> found[i] in LiveRows(rows) && matches(found[i])
        invariant forall i :: 0 <= i < |found| ==> found[i].key !in todo
        invariant forall i, j :: 0 <= i < j < |found| ==> found[i].key != found[j].key
        invariant forall k :: k in rows && k !in todo && rows[k].Live() && matches(rows[k]) ==> rows[k] in found
        decreases |todo|
      {
        var k :| k in todo;
        if rows[k].Live() && matches(rows[k]) {
          found := found + [rows[k]];
        }
        todo := todo - {k};
      }
    }

    /** Where(key).First: the live row with the key, if any. */
    method FindLive(k: K, fails: bool) returns (r: Result<Option<Row<K, D>>, DbError>)
      ensures fails <==> r.Err?
      ensures r.Err? ==> r.error == QueryFailed
      ensures r.Ok? ==> (r.value.Some? <==> k in rows && rows[k].Live())
      ensures r.Ok? && r.value.Some? ==> r.value.value == rows[k]
    {
      if fails {
        return Err(QueryFailed);
      }
      if k in rows && rows[k].Live() {
        r := Ok(Some(rows[k]));
      } else {
        r := Ok(None);
      }
    }

    /** The key of the matching live row with the smallest id (ORDER BY id LIMIT 1). */
    method FirstLiveKey(matches: Row<K, D> -> bool) returns (found: Option<K>)
      ensures found.Some? ==> found.value in rows && rows[found.value].Live() && matches(rows[found.value])
      ensures found.Some? ==>
        forall k :: k in rows && rows[k].Live() && matches(rows[k]) ==> rows[found.value].id <= rows[k].id
      ensures found.None? ==> forall k :: k in rows ==> !(rows[k].Live() && matches(rows[k]))
    {
      found := None;
      var todo := rows.Keys;
      while todo != {}
        invariant todo <= rows.Keys
        invariant found.Some? ==> found.value in rows && rows[found.value].Live() && matches(rows[found.value])
        invariant forall k :: k in rows && k !in todo && rows[k].Live() && matches(rows[k]) ==>
          found.Some? && rows[found.value].id <= rows[k].id
        decreases |todo|
      {
        var k :| k in todo;
        if rows[k].Live() && matches(rows[k]) && (found.None? || rows[k].id < rows[found.value].id) {
          found := Some(k);
        }
        todo := todo - {k};
      }
    }

    /** Where(condition).First: the matching live row with the smallest id. */
    method FirstLiveWhere(matches: Row<K, D> -> bool, fails: bool) returns (r: Result<Option<Row<K, D>>, DbError>)
      ensures fails <==> r.Err?
      ensures r.Err? ==> r.error == QueryFailed
      ensures r.Ok? && r.value.Some? ==> r.value.value in LiveRows(rows) && matches(r.value.value)
      ensures r.Ok? && r.value.Some? ==>
        forall k :: k in rows && rows[k].Live() && matches(rows[k]) ==> r.value.value.id <= rows[k].id
      ensures r.Ok? && r.value.None? ==> forall k :: k in rows ==> !(rows[k].Live() && matches(rows[k]))
    {
      if fails {
        return Err(QueryFailed);
      }
      var found := FirstLiveKey(matches);
      r := Ok(if found.Some? then Some(rows[found.value]) else None);
    }

    /** Whether a row other than the one under `self` already holds the non-zero id `id`. */
    method IdClash(id: nat, self: Option<K>) returns (clash: bool)
      ensures clash <==> IdTaken(rows, id, self)
    {
      if id == 0 {
        return false;
      }
      clash := false;
      var todo := rows.Keys;
      while todo != {}
        invariant todo <= rows.Keys
        invariant !clash
        invariant forall k :: k in rows && k !in todo && Some(k) != self ==> rows[k].id != id
        decreases |todo|
      {
        var k :| k in todo;
        if Some(k) != self && rows[k].id == id {
          return true;
        }
        todo := todo - {k};
      }
    }

    /** The key of the row whose surrogate id is `id`, if any. */
    method IdOwner(id: nat) returns (owner: Option<K>)
      ensures owner.Some? ==> owner.value in rows && rows[owner.value].id == id
      ensures owner.None? ==> forall k :: k in rows ==> rows[k].id != id
    {
      owner := None;
      var todo := rows.Keys;
      while todo != {}
        invariant todo <= rows.Keys
        invariant owner.None?
        invariant forall k :: k in rows && k !in todo ==> rows[k].id != id
        decreases |todo|
      {
        var k :| k in todo;
        if rows[k].id == id {
          return Some(k);
        }
        todo := todo - {k};
      }
    }

    /** Where(condition).Delete: one UPDATE setting deleted_at on the matching live rows. */
    method SoftDeleteWhere(matches: Row<K, D> -> bool, now: Time, fails: bool) returns (err: Option<DbError>)
      modifies this
      ensures fails ==> err == Some(QueryFailed) && rows == old(rows)
      ensures !fails ==> err.None? && rows == SoftDeleted(old(rows), matches, now)
      ensures nextId == old(nextId)
      ensures old(Valid()) ==> Valid()
    {
      if fails {
        return Some(QueryFailed);
      }
      rows := SoftDeleted(rows, matches, now);
      err := None;
    }

    /** Runs one statement outside any transaction. */
    method Execute(rec: Row<K, D>, stmt: Statement<K, D>, fails: bool) returns (err: Option<DbError>)
      modifies this
      ensures fails || stmt(old(Snap()), rec).None? ==> err.Some? && Snap() == old(Snap())
      ensures !fails && stmt(old(Snap()), rec).Some? ==> err.None? && Snap() == stmt(old(Snap()), rec).value
    {
      if fails {
        return Some(QueryFailed);
      }
      var outcome := stmt(Snap(), rec);
      if outcome.None? {
        return Some(DuplicateKey);
      }
      rows, nextId := outcome.value.rows, outcome.value.nextId;
      err := None;
    }
  }

  /** A collision in a prefix stays a collision in the whole batch. */
  lemma {:induction false} NotInsertableExtends<K, D>(s: Snapshot<K, D>, recs: seq<Row<K, D>>, n: nat, now: Time)
    requires n <= |recs| && !Insertable(s, recs[..n], now)
    ensures !Insertable(s, recs, now)
    decreases |recs| - n
  {
    if n < |recs| {
      assert recs[..n + 1][..n] == recs[..n];
      NotInsertableExtends(s, recs, n + 1, now);
    } else {
      assert recs[..n] == recs;
    }
  }

  /** Once a statement is refused, the later records change nothing. */
  lemma {:induction false} ExecStopsAtFailure<K, D>(s: Snapshot<K, D>, recs: seq<Row<K, D>>, stmt: Statement<K, D>,
                                                    rejected: set<nat>, n: nat)
    requires n <= |recs| && Exec(s, recs[..n], stmt, rejected).0.Some?
    ensures Exec(s, recs, stmt, rejected) == Exec(s, recs[..n], stmt, rejected)
    decreases |recs| - n
  {
    if n < |recs| {
      assert recs[..n + 1][..n] == recs[..n];
      ExecStopsAtFailure(s, recs, stmt, rejected, n + 1);
    } else {
      assert recs[..n] == recs;
    }
  }
}
